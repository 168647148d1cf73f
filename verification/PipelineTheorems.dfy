/** What any run of Process calls keeps, whatever fails and whatever the models reply. */
module PipelineTheorems {
  import opened Days
  import opened Scoring
  import opened PipelineProtocol
  import opened Wrappers

  // The invariant

  ghost predicate AppliedAtTriage(w: World, jobId: string) {
    (jobId, Triage) in w.evaluations && w.evaluations[(jobId, Triage)].score.recommendation == Apply
  }

  ghost predicate EachWellFormed(w: World) {
    forall k | k in w.evaluations :: KeyOf(w.evaluations[k]) == k && WellFormed(w.evaluations[k].score, k.1)
  }

  ghost predicate DeepNeedsApply(w: World) {
    forall k | k in w.evaluations && k.1 == DeepEvaluation :: AppliedAtTriage(w, k.0)
  }

  /** No (job, stage) was ever written twice, and what is stored is what was written. */
  ghost predicate WrittenOnce(w: World) {
    && (forall i | 0 <= i < |w.writes| ::
          KeyOf(w.writes[i]) in w.evaluations && w.evaluations[KeyOf(w.writes[i])] == w.writes[i])
    && (forall k | k in w.evaluations :: w.evaluations[k] in w.writes)
    && (forall i, j | 0 <= i < j < |w.writes| :: KeyOf(w.writes[i]) != KeyOf(w.writes[j]))
  }

  /** Ids and time stamps grow along the log. */
  ghost predicate InOrder(w: World) {
    && (forall i | 0 <= i < |w.writes| :: w.writes[i].id < w.nextId && w.writes[i].createdAt <= w.clock)
    && (forall i, j | 0 <= i < j < |w.writes| ::
          w.writes[i].id < w.writes[j].id && w.writes[i].createdAt <= w.writes[j].createdAt)
  }

  ghost predicate Sound(w: World) {
    EachWellFormed(w) && DeepNeedsApply(w) && WrittenOnce(w) && InOrder(w)
  }

  /** Nothing stored is lost or changed. */
  ghost predicate Kept(w: World, w2: World) {
    && w.writes <= w2.writes
    && forall k | k in w.evaluations :: k in w2.evaluations && w2.evaluations[k] == w.evaluations[k]
  }

  // What one step does

  ghost predicate Quiet(w: World, w2: World) {
    w2.evaluations == w.evaluations && w2.writes == w.writes && w.nextId <= w2.nextId && w.clock <= w2.clock
  }

  ghost predicate Wrote(w: World, w2: World, e: Evaluation) {
    && KeyOf(e) !in w.evaluations
    && w2.evaluations == w.evaluations[KeyOf(e) := e] && w2.writes == w.writes + [e]
    && w.nextId <= e.id < w2.nextId && w.clock <= e.createdAt <= w2.clock
    && WellFormed(e.score, e.stage)
    && (e.stage == DeepEvaluation ==> AppliedAtTriage(w, e.jobId))
  }

  ghost predicate Moved(w: World, w2: World, k: Key) {
    Quiet(w, w2) || (k in w2.evaluations && KeyOf(w2.evaluations[k]) == k && Wrote(w, w2, w2.evaluations[k]))
  }

  lemma LogKept(w: World, w2: World, e: Evaluation)
    requires WrittenOnce(w) && Wrote(w, w2, e)
    ensures WrittenOnce(w2)
  {
    forall k | k in w2.evaluations ensures w2.evaluations[k] in w2.writes {
      if k == KeyOf(e) {
        assert w2.writes[|w.writes|] == e;
      }
    }
  }

  lemma OrderKept(w: World, w2: World, e: Evaluation)
    requires InOrder(w) && Wrote(w, w2, e)
    ensures InOrder(w2)
  {
  }

  lemma ApplyStillNeeded(w: World, w2: World, e: Evaluation)
    requires DeepNeedsApply(w) && Wrote(w, w2, e)
    ensures DeepNeedsApply(w2)
  {
    forall k | k in w2.evaluations && k.1 == DeepEvaluation ensures AppliedAtTriage(w2, k.0) {
      if k != KeyOf(e) {
        assert AppliedAtTriage(w, k.0);
      }
    }
  }

  lemma WroteKeeps(w: World, w2: World, e: Evaluation)
    requires Sound(w) && Wrote(w, w2, e)
    ensures Sound(w2) && Kept(w, w2)
  {
    LogKept(w, w2, e);
    OrderKept(w, w2, e);
    ApplyStillNeeded(w, w2, e);
  }

  lemma MovedKeeps(w: World, w2: World, k: Key)
    requires Sound(w) && Moved(w, w2, k)
    ensures Sound(w2) && Kept(w, w2)
  {
    if !Quiet(w, w2) {
      WroteKeeps(w, w2, w2.evaluations[k]);
    } else {
      forall k | k in w2.evaluations && k.1 == DeepEvaluation ensures AppliedAtTriage(w2, k.0) {
        assert AppliedAtTriage(w, k.0);
      }
    }
  }

  ghost predicate Stored(w: World, k: Key, score: Score) {
    k in w.evaluations && w.evaluations[k].score == score
  }

  /** A stage ends with `score` stored if it reports success, and stores nothing else. */
  ghost predicate StageDone(w: World, w2: World, k: Key, r: Outcome, score: Score) {
    && Moved(w, w2, k)
    && (r.Scored? ==> r.score == score && Stored(w2, k, score))
    && (k in w2.evaluations ==> Stored(w2, k, score))
    && (k in w.evaluations ==> w2 == w)
  }

  lemma SaveDone(w: World, k: Key, score: Score, delay: nat, reply: SaveReply)
    requires k !in w.evaluations && WellFormed(score, k.1)
    requires k.1 == DeepEvaluation ==> AppliedAtTriage(w, k.0)
    ensures var (w2, r) := SaveEvaluation(w, k, score, delay, reply);
      StageDone(w, w2, k, r, score) && (r.Scored? <==> reply == Saved)
  {
  }

  /** The score a stage has or, if its model replies, will get. */
  predicate Expects(w: World, k: Key, reply: Maybe<Score>, score: Score) {
    if k in w.evaluations then w.evaluations[k].score == score
    else reply.Some? ==> reply.value == score && WellFormed(score, k.1)
  }

  lemma RunStageDone(w: World, k: Key, get: bool, reply: Maybe<Score>, delay: nat, save: SaveReply, score: Score)
    requires Expects(w, k, reply, score)
    requires k.1 == DeepEvaluation ==> AppliedAtTriage(w, k.0)
    ensures var (w2, r) := RunStage(w, k, get, reply, delay, save);
      && StageDone(w, w2, k, r, score)
      && (get && reply.Some? && save == Saved ==> r.Scored?)
  {
    if get && k !in w.evaluations && reply.Some? {
      SaveDone(w.Ask(k), k, score, delay, save);
    }
  }

  // Models

  /** Replies as a function of the job. */
  datatype Model = Model(triage: string -> TriageOutput, evaluation: string -> EvaluationOutput)

  predicate Faithful(env: Env, model: Model, jobId: string) {
    && (env.triage.Some? ==> env.triage.value == model.triage(jobId))
    && (env.evaluation.Some? ==> env.evaluation.value == model.evaluation(jobId))
  }

  /** The score a stage has or will get. */
  function Expected(w: World, model: Model, k: Key): Score {
    if k in w.evaluations then w.evaluations[k].score
    else match k.1
      case Triage => ApplyTriage(model.triage(k.0))
      case DeepEvaluation => ApplyEvaluation(model.evaluation(k.0))
  }

  // The daily cap

  predicate HasBudget(w: World, env: Env, limits: Limits) {
    w.DeepCount(StartOfDay(w.clock + env.toStart)) < limits.deepPerDay
  }

  lemma DeepCountIs(w: World, since: int)
    ensures w.DeepCount(since) == CountSince(w.DeepTimes(), since)
  {
    var times := w.DeepTimes();
    assert (set k | k in times && times[k] >= since)
        == set k | k in w.evaluations && k.1 == DeepEvaluation && w.evaluations[k].createdAt >= since;
  }

  lemma SameCount(w: World, w2: World, since: int)
    requires w2.DeepTimes() == w.DeepTimes()
    ensures w2.DeepCount(since) == w.DeepCount(since)
  {
    DeepCountIs(w, since);
    DeepCountIs(w2, since);
  }

  lemma TriageTimes(w: World, w2: World, jobId: string)
    requires Moved(w, w2, (jobId, Triage))
    ensures w2.DeepTimes() == w.DeepTimes()
  {
  }

  lemma DeepCap(w: World, w2: World, jobId: string, check: int, limit: int)
    requires Moved(w, w2, (jobId, DeepEvaluation)) && Capped(w.DeepTimes(), limit)
    requires check <= w.clock && w.DeepCount(StartOfDay(check)) < limit
    ensures Capped(w2.DeepTimes(), limit)
  {
    if Quiet(w, w2) {
      assert w2.DeepTimes() == w.DeepTimes();
    } else {
      var k := (jobId, DeepEvaluation);
      assert w2.DeepTimes() == w.DeepTimes()[k := w2.evaluations[k].createdAt];
      DeepCountIs(w, StartOfDay(check));
      CapSurvivesMidnight(w.DeepTimes(), k, check, w2.evaluations[k].createdAt, limit);
    }
  }

  // One call

  ghost predicate RunInv(w: World, limits: Limits) {
    Sound(w) && Capped(w.DeepTimes(), limits.deepPerDay)
  }

  /** What one call does; `et` and `ed` are the scores expected of the two stages. */
  ghost predicate Done(w: World, w2: World, r: Outcome, jobId: string, budget: bool, et: Score, ed: Score) {
    && Kept(w, w2)
    && ((jobId, Triage) in w2.evaluations ==> Stored(w2, (jobId, Triage), et))
    && ((jobId, DeepEvaluation) in w2.evaluations ==> Stored(w2, (jobId, DeepEvaluation), ed))
    && (r.Scored? ==> Stored(w2, (jobId, Triage), et))
    && (r.Scored? && et.recommendation == Apply && budget ==>
          r.score == ed && Stored(w2, (jobId, DeepEvaluation), ed))
    && (r.Scored? && !(et.recommendation == Apply && budget) ==> r.score == et)
    && (forall k | k in w2.evaluations && k.0 != jobId :: k in w.evaluations)
  }

  lemma QuietKeeps(w: World, w2: World, limits: Limits)
    requires RunInv(w, limits) && Quiet(w, w2)
    ensures RunInv(w2, limits) && Kept(w, w2) && w2.DeepTimes() == w.DeepTimes()
  {
    MovedKeeps(w, w2, ("", Triage));
    assert w2.DeepTimes() == w.DeepTimes();
  }

  lemma TriageKeeps(w: World, w2: World, limits: Limits, jobId: string)
    requires RunInv(w, limits) && Moved(w, w2, (jobId, Triage))
    ensures RunInv(w2, limits) && Kept(w, w2) && w2.DeepTimes() == w.DeepTimes() && w.clock <= w2.clock
    ensures forall k | k in w2.evaluations && k != (jobId, Triage) :: k in w.evaluations
  {
    MovedKeeps(w, w2, (jobId, Triage));
    TriageTimes(w, w2, jobId);
  }

  /** Where a call stands when the triage stage has answered. */
  ghost predicate Triaged(w: World, w1: World, triage: Outcome, jobId: string, et: Score) {
    && Kept(w, w1)
    && (forall k | k in w1.evaluations && k != (jobId, Triage) :: k in w.evaluations)
    && ((jobId, Triage) in w1.evaluations ==> Stored(w1, (jobId, Triage), et))
    && (triage.Scored? ==> triage.score == et && Stored(w1, (jobId, Triage), et))
  }

  lemma DeepStageDone(
      w: World, w1: World, w2: World, r: Outcome, limits: Limits, jobId: string, check: int, et: Score, ed: Score)
    requires RunInv(w1, limits) && check <= w1.clock && w1.DeepCount(StartOfDay(check)) < limits.deepPerDay
    requires Triaged(w, w1, Scored(et), jobId, et) && et.recommendation == Apply
    requires StageDone(w1, w2, (jobId, DeepEvaluation), r, ed)
    ensures RunInv(w2, limits) && Done(w, w2, r, jobId, true, et, ed)
  {
    MovedKeeps(w1, w2, (jobId, DeepEvaluation));
    DeepCap(w1, w2, jobId, check, limits.deepPerDay);
    DeepMoveDone(w, w1, w2, r, jobId, et, ed);
  }

  lemma DeepMoveDone(w: World, w1: World, w2: World, r: Outcome, jobId: string, et: Score, ed: Score)
    requires Triaged(w, w1, Scored(et), jobId, et) && et.recommendation == Apply && Kept(w1, w2)
    requires StageDone(w1, w2, (jobId, DeepEvaluation), r, ed)
    ensures Done(w, w2, r, jobId, true, et, ed)
  {
  }

  lemma NoDeepStageDone(
      w: World, w1: World, r: Outcome, jobId: string, budget: bool, ds: Maybe<Score>, et: Score, ed: Score)
    requires Triaged(w, w1, r, jobId, et) && Expects(w1, (jobId, DeepEvaluation), ds, ed)
    requires r.Scored? ==> !(et.recommendation == Apply && budget)
    ensures Done(w, w1, r, jobId, budget, et, ed)
  {
  }

  lemma AfterTriageDone(w: World, w1: World, env: Env, limits: Limits, jobId: string, check: int,
                        triage: Outcome, ds: Maybe<Score>, et: Score, ed: Score, budget: bool)
    requires RunInv(w1, limits) && check <= w1.clock && budget == (w1.DeepCount(StartOfDay(check)) < limits.deepPerDay)
    requires Triaged(w, w1, triage, jobId, et) && Expects(w1, (jobId, DeepEvaluation), ds, ed)
    ensures var (w2, r) := AfterTriage(w1, env, limits, jobId, StartOfDay(check), triage, ds);
      RunInv(w2, limits) && Done(w, w2, r, jobId, budget, et, ed)
  {
    var k := (jobId, DeepEvaluation);
    if triage.Err? || et.recommendation != Apply {
      NoDeepStageDone(w, w1, triage, jobId, budget, ds, et, ed);
    } else if !env.countDeep {
      NoDeepStageDone(w, w1, Err(DeepCountFailed), jobId, budget, ds, et, ed);
    } else if !budget {
      NoDeepStageDone(w, w1, triage, jobId, budget, ds, et, ed);
    } else {
      RunStageDone(w1, k, env.getDeep, ds, env.toDeep, env.saveDeep, ed);
      var (w2, r) := RunStage(w1, k, env.getDeep, ds, env.toDeep, env.saveDeep);
      DeepStageDone(w, w1, w2, r, limits, jobId, check, et, ed);
    }
  }

  lemma TriageStage(
      w: World, w0: World, w1: World, limits: Limits, jobId: string, triage: Outcome,
      et: Score, ds: Maybe<Score>, ed: Score)
    requires RunInv(w, limits) && Quiet(w, w0) && StageDone(w0, w1, (jobId, Triage), triage, et)
    requires Expects(w, (jobId, DeepEvaluation), ds, ed)
    ensures RunInv(w1, limits) && w0.clock <= w1.clock && w1.DeepTimes() == w.DeepTimes()
    ensures Triaged(w, w1, triage, jobId, et) && Expects(w1, (jobId, DeepEvaluation), ds, ed)
  {
    QuietKeeps(w, w0, limits);
    TriageKeeps(w0, w1, limits, jobId);
  }

  predicate Admitted(env: Env, limits: Limits) {
    env.discovered.Some? && env.discovered.value < limits.jobsPerDay
  }

  lemma AdmittedDone(w: World, w1: World, env: Env, limits: Limits, jobId: string, triage: Outcome,
                     ts: Maybe<Score>, ds: Maybe<Score>, et: Score, ed: Score, check: int, budget: bool)
    requires RunInv(w, limits) && check == w.clock + env.toStart
    requires Expects(w, (jobId, Triage), ts, et) && Expects(w, (jobId, DeepEvaluation), ds, ed)
    requires (w1, triage)
          == RunStage(w.Tick(env.toStart), (jobId, Triage), env.getTriage, ts, env.toTriage, env.saveTriage)
    requires budget == (w.DeepCount(StartOfDay(check)) < limits.deepPerDay)
    ensures var (w2, r) := AfterTriage(w1, env, limits, jobId, StartOfDay(check), triage, ds);
      RunInv(w2, limits) && Done(w, w2, r, jobId, budget, et, ed)
  {
    var w0 := w.Tick(env.toStart);
    RunStageDone(w0, (jobId, Triage), env.getTriage, ts, env.toTriage, env.saveTriage, et);
    TriageStage(w, w0, w1, limits, jobId, triage, et, ds, ed);
    SameCount(w, w1, StartOfDay(check));
    AfterTriageDone(w, w1, env, limits, jobId, check, triage, ds, et, ed, budget);
  }

  lemma ProcessIs(
      w: World, env: Env, limits: Limits, jobId: string, ts: Maybe<Score>, ds: Maybe<Score>, w1: World, triage: Outcome)
    requires (w1, triage)
          == RunStage(w.Tick(env.toStart), (jobId, Triage), env.getTriage, ts, env.toTriage, env.saveTriage)
    ensures var p := ProcessWith(w, env, limits, jobId, ts, ds);
      if Admitted(env, limits)
      then p == AfterTriage(w1, env, limits, jobId, StartOfDay(w.clock + env.toStart), triage, ds)
      else p.0 == w.Tick(env.toStart) && p.1.Err?
  {
  }

  lemma ProcessWithDone(w: World, env: Env, limits: Limits, jobId: string,
                        ts: Maybe<Score>, ds: Maybe<Score>, et: Score, ed: Score, budget: bool)
    requires RunInv(w, limits) && budget == HasBudget(w, env, limits)
    requires Expects(w, (jobId, Triage), ts, et) && Expects(w, (jobId, DeepEvaluation), ds, ed)
    ensures var (w2, r) := ProcessWith(w, env, limits, jobId, ts, ds);
      RunInv(w2, limits) && Done(w, w2, r, jobId, budget, et, ed)
  {
    var (w1, triage) := RunStage(w.Tick(env.toStart), (jobId, Triage), env.getTriage, ts, env.toTriage, env.saveTriage);
    ProcessIs(w, env, limits, jobId, ts, ds, w1, triage);
    if Admitted(env, limits) {
      AdmittedDone(w, w1, env, limits, jobId, triage, ts, ds, et, ed, w.clock + env.toStart, budget);
    } else {
      var p := ProcessWith(w, env, limits, jobId, ts, ds);
      FailedDone(w, p.0, limits, jobId, ts, ds, et, ed, budget, p.1);
    }
  }

  lemma FailedDone(w: World, w2: World, limits: Limits, jobId: string,
                   ts: Maybe<Score>, ds: Maybe<Score>, et: Score, ed: Score, budget: bool, r: Outcome)
    requires RunInv(w, limits) && Quiet(w, w2) && r.Err?
    requires Expects(w, (jobId, Triage), ts, et) && Expects(w, (jobId, DeepEvaluation), ds, ed)
    ensures RunInv(w2, limits) && Done(w, w2, r, jobId, budget, et, ed)
  {
    QuietKeeps(w, w2, limits);
  }

  lemma ExpectedExpects(w: World, env: Env, model: Model, jobId: string)
    requires Faithful(env, model, jobId)
    ensures Expects(w, (jobId, Triage), TriageScore(env), Expected(w, model, (jobId, Triage)))
    ensures Expects(w, (jobId, DeepEvaluation), DeepScore(env), Expected(w, model, (jobId, DeepEvaluation)))
  {
    ApplyNeedsTheWord(model.triage(jobId), model.evaluation(jobId));
  }

  lemma ProcessDone(w: World, env: Env, limits: Limits, model: Model, jobId: string)
    requires RunInv(w, limits) && Faithful(env, model, jobId)
    ensures var (w2, r) := Process(w, env, limits, jobId);
      && RunInv(w2, limits)
      && Done(w, w2, r, jobId, HasBudget(w, env, limits),
              Expected(w, model, (jobId, Triage)), Expected(w, model, (jobId, DeepEvaluation)))
  {
    ExpectedExpects(w, env, model, jobId);
    ProcessWithDone(w, env, limits, jobId, TriageScore(env), DeepScore(env), Expected(w, model, (jobId, Triage)),
                    Expected(w, model, (jobId, DeepEvaluation)), HasBudget(w, env, limits));
  }

  // Runs

  /** Any replies are a model's for one call. */
  function ModelOf(env: Env): Model {
    var t := if env.triage.Some? then env.triage.value else TriageOutput(0, false, [], [], [], "");
    var e := if env.evaluation.Some? then env.evaluation.value else EvaluationOutput(0, "", [], [], [], [], "");
    Model(_ => t, _ => e)
  }

  lemma {:induction false} RunKeeps(w: World, limits: Limits, calls: seq<Call>)
    requires RunInv(w, limits)
    ensures RunInv(Run(w, limits, calls), limits) && Kept(w, Run(w, limits, calls))
    decreases |calls|
  {
    if calls != [] {
      var front, last := calls[..|calls| - 1], calls[|calls| - 1];
      RunKeeps(w, limits, front);
      ProcessDone(Run(w, limits, front), last.env, limits, ModelOf(last.env), last.jobId);
    }
  }

  lemma EmptyInv(clock: int, limits: Limits)
    ensures RunInv(EmptyWorld(clock), limits)
  {
    var times := EmptyWorld(clock).DeepTimes();
    forall day ensures CountOnDay(times, day) == 0 {
      assert (set k | k in times && DayOf(times[k]) == day) == {};
    }
  }

  /** The world after some calls on an empty store. */
  ghost predicate Reached(w: World, clock: int, limits: Limits, calls: seq<Call>) {
    w == Run(EmptyWorld(clock), limits, calls)
  }

  lemma ReachedInv(w: World, clock: int, limits: Limits, calls: seq<Call>)
    requires Reached(w, clock, limits, calls)
    ensures RunInv(w, limits)
  {
    EmptyInv(clock, limits);
    RunKeeps(EmptyWorld(clock), limits, calls);
  }

  /** In every reachable store each (job, stage) was written once and is as written, every deep
      evaluation has an APPLY triage of the same job, and every value is in 0..100. */
  lemma {:induction false} ReachableEvaluations(w: World, clock: int, limits: Limits, calls: seq<Call>)
    requires Reached(w, clock, limits, calls)
    ensures WrittenOnce(w) && DeepNeedsApply(w) && EachWellFormed(w) && InOrder(w)
  {
    ReachedInv(w, clock, limits, calls);
  }

  /** A call that reads the clock before midnight and writes after it does not break the cap. */
  lemma {:induction false} DailyDeepEvaluationsCapped(w: World, clock: int, limits: Limits, calls: seq<Call>, day: int)
    requires Reached(w, clock, limits, calls)
    ensures CountOnDay(w.DeepTimes(), day) <= if limits.deepPerDay < 0 then 0 else limits.deepPerDay
  {
    ReachedInv(w, clock, limits, calls);
  }

  /** Success returns a stored score of that very job: the deep one exactly when triage said APPLY
      and budget was left. */
  lemma {:induction false} SuccessReturnsStoredScore(
      w: World, clock: int, limits: Limits, calls: seq<Call>, env: Env, jobId: string, w2: World, r: Outcome)
    requires Reached(w, clock, limits, calls) && (w2, r) == Process(w, env, limits, jobId) && r.Scored?
    ensures (jobId, Triage) in w2.evaluations
    ensures var stage := if AppliedAtTriage(w2, jobId) && HasBudget(w, env, limits) then DeepEvaluation else Triage;
      Stored(w2, (jobId, stage), r.score) && r.score.evaluatedBy == stage
  {
    ReachedInv(w, clock, limits, calls);
    ProcessDone(w, env, limits, ModelOf(env), jobId);
  }

  // Retrying

  predicate AllFaithful(calls: seq<Call>, model: Model) {
    forall i | 0 <= i < |calls| :: Faithful(calls[i].env, model, calls[i].jobId)
  }

  lemma ExpectedAfter(w: World, w2: World, r: Outcome, model: Model, jobId: string, budget: bool, k: Key)
    requires Done(w, w2, r, jobId, budget, Expected(w, model, (jobId, Triage)),
                  Expected(w, model, (jobId, DeepEvaluation)))
    ensures Expected(w2, model, k) == Expected(w, model, k)
  {
  }

  lemma {:induction false} ExpectedThroughout(w: World, limits: Limits, calls: seq<Call>, model: Model, k: Key)
    requires RunInv(w, limits) && AllFaithful(calls, model)
    ensures Expected(Run(w, limits, calls), model, k) == Expected(w, model, k)
    decreases |calls|
  {
    if calls != [] {
      var front, last := calls[..|calls| - 1], calls[|calls| - 1];
      ExpectedThroughout(w, limits, front, model, k);
      RunKeeps(w, limits, front);
      var m := Run(w, limits, front);
      ProcessDone(m, last.env, limits, model, last.jobId);
      ExpectedAfter(m, Run(w, limits, calls), Process(m, last.env, limits, last.jobId).1, model, last.jobId,
                    HasBudget(m, last.env, limits), k);
    }
  }

  /** The score a job ends with, once a call for it succeeds with budget left. */
  function FinalScore(w: World, model: Model, jobId: string): Score {
    if Expected(w, model, (jobId, Triage)).recommendation == Apply
    then Expected(w, model, (jobId, DeepEvaluation)) else Expected(w, model, (jobId, Triage))
  }

  function ScoreAt(w: World, k: Key): Maybe<Score> {
    if k in w.evaluations then Some(w.evaluations[k].score) else None
  }

  /** After a success with budget left, the stored scores of the job are determined. */
  lemma SettledScores(w: World, w2: World, r: Outcome, jobId: string, et: Score, ed: Score)
    requires Sound(w2) && Done(w, w2, r, jobId, true, et, ed) && r.Scored?
    ensures ScoreAt(w2, (jobId, Triage)) == Some(et)
    ensures ScoreAt(w2, (jobId, DeepEvaluation)) == if et.recommendation == Apply then Some(ed) else None
    ensures r.score == if et.recommendation == Apply then ed else et
  {
    if (jobId, DeepEvaluation) in w2.evaluations {
      assert AppliedAtTriage(w2, jobId);
    }
  }

  predicate FaultFree(env: Env, limits: Limits) {
    && Admitted(env, limits)
    && env.getTriage && env.triage.Some? && env.saveTriage == Saved
    && env.countDeep && env.getDeep && env.evaluation.Some? && env.saveDeep == Saved
  }

  lemma FaultFreeSucceeds(w: World, env: Env, limits: Limits, jobId: string)
    requires FaultFree(env, limits)
    ensures Process(w, env, limits, jobId).1.Scored?
  {
  }

  /** With replies a function of the job and budget left: after any calls for any jobs with any
      faults, a successful call returns the score, and leaves the stored scores, of one fault-free
      call made at the beginning. */
  lemma {:induction false} FaultsDoNotMatter(
      w: World, limits: Limits, model: Model, attempts: seq<Call>, m: World, env: Env, clean: Env, jobId: string,
      w2: World, r: Outcome, once: World, s: Outcome)
    requires RunInv(w, limits)
    requires AllFaithful(attempts, model) && Faithful(env, model, jobId) && Faithful(clean, model, jobId)
    requires m == Run(w, limits, attempts)
    requires (w2, r) == Process(m, env, limits, jobId) && HasBudget(m, env, limits) && r.Scored?
    requires (once, s) == Process(w, clean, limits, jobId) && HasBudget(w, clean, limits) && FaultFree(clean, limits)
    ensures r == s == Scored(FinalScore(w, model, jobId))
    ensures forall stage :: ScoreAt(w2, (jobId, stage)) == ScoreAt(once, (jobId, stage))
  {
    var et, ed := Expected(w, model, (jobId, Triage)), Expected(w, model, (jobId, DeepEvaluation));
    RunKeeps(w, limits, attempts);
    ExpectedThroughout(w, limits, attempts, model, (jobId, Triage));
    ExpectedThroughout(w, limits, attempts, model, (jobId, DeepEvaluation));
    ProcessDone(m, env, limits, model, jobId);
    SettledScores(m, w2, r, jobId, et, ed);
    FaultFreeSucceeds(w, clean, limits, jobId);
    ProcessDone(w, clean, limits, model, jobId);
    SettledScores(w, once, s, jobId, et, ed);
    forall stage ensures ScoreAt(w2, (jobId, stage)) == ScoreAt(once, (jobId, stage)) {
      assert stage == Triage || stage == DeepEvaluation;
    }
  }

  /** Every evaluation the job still needs is stored. */
  ghost predicate Complete(w: World, jobId: string) {
    && (jobId, Triage) in w.evaluations
    && (AppliedAtTriage(w, jobId) ==> (jobId, DeepEvaluation) in w.evaluations)
  }

  lemma CompleteStays(w: World, w2: World, jobId: string)
    requires Complete(w, jobId) && Kept(w, w2)
    ensures Complete(w2, jobId)
  {
  }

  lemma CompleteAsksNothing(w: World, env: Env, limits: Limits, jobId: string)
    requires Complete(w, jobId)
    ensures var w2 := Process(w, env, limits, jobId).0;
      w2.asked == w.asked && w2.writes == w.writes && w2.evaluations == w.evaluations && w2.nextId == w.nextId
  {
  }

  lemma SameScoreAgain(w: World, env: Env, limits: Limits, jobId: string)
    requires Complete(w, jobId) && Process(w, env, limits, jobId).1.Scored?
    ensures Process(w, env, limits, jobId).1.score
         == if AppliedAtTriage(w, jobId) && HasBudget(w, env, limits) then w.evaluations[(jobId, DeepEvaluation)].score
            else w.evaluations[(jobId, Triage)].score
  {
    SameCount(w, w.Tick(env.toStart), StartOfDay(w.clock + env.toStart));
  }

  /** After a success with budget left, no later call for the job, whatever happens in between, asks
      a model or writes anything; one that succeeds with budget left returns the same score. */
  lemma {:induction false} LaterCallsAskNothing(
      w: World, clock: int, limits: Limits, calls: seq<Call>, env: Env, jobId: string, w2: World, r: Outcome,
      between: seq<Call>, w3: World, again: Env, w4: World, r4: Outcome)
    requires Reached(w, clock, limits, calls)
    requires (w2, r) == Process(w, env, limits, jobId) && r.Scored? && HasBudget(w, env, limits)
    requires w3 == Run(w2, limits, between) && (w4, r4) == Process(w3, again, limits, jobId)
    ensures w4.asked == w3.asked && w4.writes == w3.writes
    ensures r4.Scored? && HasBudget(w3, again, limits) ==> r4 == r
  {
    ReachedInv(w, clock, limits, calls);
    ProcessDone(w, env, limits, ModelOf(env), jobId);
    RunKeeps(w2, limits, between);
    CompleteStays(w2, w3, jobId);
    CompleteAsksNothing(w3, again, limits, jobId);
    if r4.Scored? {
      SameScoreAgain(w3, again, limits, jobId);
    }
  }

  /** The deep score of an evaluated job is what a fault-free call returns exactly when budget is
      left: with the budget spent, the triage score comes back instead. */
  lemma DeepScoreReturnedIff(w: World, env: Env, limits: Limits, jobId: string)
    requires Sound(w) && (jobId, DeepEvaluation) in w.evaluations && FaultFree(env, limits)
    ensures Process(w, env, limits, jobId).1 == Scored(w.evaluations[(jobId, DeepEvaluation)].score)
        <==> HasBudget(w, env, limits)
  {
    assert AppliedAtTriage(w, jobId);
    FaultFreeSucceeds(w, env, limits, jobId);
    SameScoreAgain(w, env, limits, jobId);
  }

  /** All replies of a day without faults or delays, with a triage that says apply. */
  predicate PromptApply(env: Env, limits: Limits) {
    && FaultFree(env, limits) && env.toStart == 0 && env.toTriage == 0 && env.toDeep == 0
    && !env.triage.value.hardFail && SaysApply(env.triage.value.recommendation)
  }

  lemma PromptApplyStoresBoth(clock: int, limits: Limits, env: Env, jobId: string, w: World)
    requires PromptApply(env, limits) && limits.deepPerDay >= 1
    requires w == Process(EmptyWorld(clock), env, limits, jobId).0
    ensures w.clock == clock && (jobId, Triage) in w.evaluations && (jobId, DeepEvaluation) in w.evaluations
    ensures w.evaluations[(jobId, DeepEvaluation)].createdAt == clock
  {
    ApplyNeedsTheWord(env.triage.value, env.evaluation.value);
    var empty := EmptyWorld(clock);
    var e := Evaluation(0, jobId, Triage, ApplyTriage(env.triage.value), clock);
    var w1 := empty.Ask((jobId, Triage)).(nextId := 1).Write(e);
    assert RunStage(empty, (jobId, Triage), true, TriageScore(env), 0, Saved) == (w1, Scored(e.score));
    assert w1.DeepCount(StartOfDay(clock)) == 0 by {
      var deep := set k |
        k in w1.evaluations && k.1 == DeepEvaluation && w1.evaluations[k].createdAt >= StartOfDay(clock);
      assert deep == {};
    }
  }

  /** Such a store is reached: with a limit of one deep evaluation, the second fault-free call of the
      day for the one job evaluated deeply returns its triage score and not its deep one. */
  lemma SpentBudgetIsReached(clock: int, limits: Limits, env: Env, again: Env, jobId: string, w: World)
    requires PromptApply(env, limits) && limits.deepPerDay == 1 && FaultFree(again, limits) && again.toStart == 0
    requires w == Process(EmptyWorld(clock), env, limits, jobId).0
    ensures Reached(w, clock, limits, [Call(env, jobId)])
    ensures (jobId, Triage) in w.evaluations && (jobId, DeepEvaluation) in w.evaluations
    ensures !HasBudget(w, again, limits)
    ensures Process(w, again, limits, jobId).1 == Scored(w.evaluations[(jobId, Triage)].score)
    ensures w.evaluations[(jobId, Triage)].score != w.evaluations[(jobId, DeepEvaluation)].score
  {
    var calls := [Call(env, jobId)];
    assert calls[..0] == [];
    ReachedInv(w, clock, limits, calls);
    PromptApplyStoresBoth(clock, limits, env, jobId, w);
    var k := (jobId, DeepEvaluation);
    var counted := set x |
      x in w.evaluations && x.1 == DeepEvaluation && w.evaluations[x].createdAt >= StartOfDay(clock);
    assert k in counted;
    assert w.DeepCount(StartOfDay(clock)) >= 1;
    FaultFreeSucceeds(w, again, limits, jobId);
    SameScoreAgain(w, again, limits, jobId);
  }

  /** A job is deep-evaluated only if its triage reply says apply and does not fail it hard; what is
      stored is always what the replies convert to. */
  lemma {:induction false} NothingPassesTheHardFilter(
      w: World, clock: int, limits: Limits, calls: seq<Call>, model: Model, jobId: string)
    requires Reached(w, clock, limits, calls) && AllFaithful(calls, model)
    ensures (jobId, DeepEvaluation) in w.evaluations ==>
      && !model.triage(jobId).hardFail && SaysApply(model.triage(jobId).recommendation)
      && Stored(w, (jobId, DeepEvaluation), ApplyEvaluation(model.evaluation(jobId)))
    ensures (jobId, Triage) in w.evaluations ==> Stored(w, (jobId, Triage), ApplyTriage(model.triage(jobId)))
  {
    var start := EmptyWorld(clock);
    EmptyInv(clock, limits);
    ReachedInv(w, clock, limits, calls);
    ExpectedThroughout(start, limits, calls, model, (jobId, Triage));
    ExpectedThroughout(start, limits, calls, model, (jobId, DeepEvaluation));
    ApplyNeedsTheWord(model.triage(jobId), model.evaluation(jobId));
    if (jobId, DeepEvaluation) in w.evaluations {
      assert AppliedAtTriage(w, jobId);
    }
  }
}
