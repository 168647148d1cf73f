/** One call of Process on an evaluation store: triage, then deep evaluation, with idempotency
    lookups, daily limits and a fault possible at every call (internal/job/pipeline.go). */
module PipelineProtocol {
  import opened Days
  import opened Scoring
  import opened Wrappers

  datatype Evaluation = Evaluation(id: nat, jobId: string, stage: Stage, score: Score, createdAt: int)

  type Key = (string, Stage)

  function KeyOf(e: Evaluation): Key {
    (e.jobId, e.stage)
  }

  /** The stored evaluations, the log of all writes, the log of all questions put to a model, the
      next fresh id and the clock. */
  datatype World = World(
    evaluations: map<Key, Evaluation>,
    writes: seq<Evaluation>,
    asked: seq<Key>,
    nextId: nat,
    clock: int)
  {
    function Tick(d: nat): World {
      this.(clock := clock + d)
    }

    function Ask(k: Key): World {
      this.(asked := asked + [k])
    }

    function Write(e: Evaluation): World {
      this.(evaluations := evaluations[KeyOf(e) := e], writes := writes + [e])
    }

    function DeepTimes(): map<Key, int> {
      map k | k in evaluations && k.1 == DeepEvaluation :: evaluations[k].createdAt
    }

    function DeepCount(since: int): nat {
      |set k | k in evaluations && k.1 == DeepEvaluation && evaluations[k].createdAt >= since|
    }
  }

  function EmptyWorld(clock: int): World {
    World(map[], [], [], 0, clock)
  }

  datatype Limits = Limits(jobsPerDay: int, deepPerDay: int)

  /** A save may succeed, be refused, or take effect and still be reported as failed. */
  datatype SaveReply = Saved | Refused | SavedButReportedFailed

  /** Every operation happens at most once in a call, so these are all the replies and delays one
      call may meet. A None, a false get or a false count is a failed call; a model's reply is None too
      when it cannot be parsed. */
  datatype Env = Env(
    discovered: Maybe<int>,
    getTriage: bool, triage: Maybe<TriageOutput>, saveTriage: SaveReply,
    countDeep: bool, getDeep: bool, evaluation: Maybe<EvaluationOutput>, saveDeep: SaveReply,
    toStart: nat, toTriage: nat, toDeep: nat)

  datatype Failure =
    | DiscoveryCountFailed | DiscoveryLimitReached | DeepCountFailed
    | LookupFailed(stage: Stage) | ModelFailed(stage: Stage) | SaveFailed(stage: Stage)

  datatype Outcome = Scored(score: Score) | Err(failure: Failure)

  /** The score a triage reply converts to; the conversion touches no state. */
  function TriageScore(env: Env): Maybe<Score> {
    match env.triage
    case None => None
    case Some(out) => Some(ApplyTriage(out))
  }

  function DeepScore(env: Env): Maybe<Score> {
    match env.evaluation
    case None => None
    case Some(out) => Some(ApplyEvaluation(out))
  }

  function Process(w: World, env: Env, limits: Limits, jobId: string): (World, Outcome) {
    ProcessWith(w, env, limits, jobId, TriageScore(env), DeepScore(env))
  }

  function ProcessWith(w: World, env: Env, limits: Limits, jobId: string, ts: Maybe<Score>, ds: Maybe<Score>)
    : (World, Outcome)
  {
    var w0 := w.Tick(env.toStart);
    match env.discovered
    case None => (w0, Err(DiscoveryCountFailed))
    case Some(n) =>
      if n >= limits.jobsPerDay then (w0, Err(DiscoveryLimitReached))
      else
        var (w1, triage) := RunStage(w0, (jobId, Triage), env.getTriage, ts, env.toTriage, env.saveTriage);
        AfterTriage(w1, env, limits, jobId, StartOfDay(w0.clock), triage, ds)
  }

  function AfterTriage(
      w: World, env: Env, limits: Limits, jobId: string, startOfDay: int, triage: Outcome, ds: Maybe<Score>)
    : (World, Outcome)
  {
    if triage.Err? || triage.score.recommendation != Apply then (w, triage)
    else if !env.countDeep then (w, Err(DeepCountFailed))
    else if w.DeepCount(startOfDay) >= limits.deepPerDay then (w, triage)
    else RunStage(w, (jobId, DeepEvaluation), env.getDeep, ds, env.toDeep, env.saveDeep)
  }

  /** runTriage and runDeepEvaluation: the stored score if there is one, else ask, convert, save. */
  function RunStage(w: World, k: Key, get: bool, reply: Maybe<Score>, delay: nat, save: SaveReply): (World, Outcome) {
    if !get then (w, Err(LookupFailed(k.1)))
    else if k in w.evaluations then (w, Scored(w.evaluations[k].score))
    else if reply.None? then (w.Ask(k), Err(ModelFailed(k.1)))
    else SaveEvaluation(w.Ask(k), k, reply.value, delay, save)
  }

  /** The id is drawn and the clock read before the save is tried. */
  function SaveEvaluation(w: World, k: Key, score: Score, delay: nat, reply: SaveReply): (World, Outcome) {
    var later := w.Tick(delay).(nextId := w.nextId + 1);
    var e := Evaluation(w.nextId, k.0, k.1, score, later.clock);
    match reply
    case Saved => (later.Write(e), Scored(score))
    case Refused => (later, Err(SaveFailed(k.1)))
    case SavedButReportedFailed => (later.Write(e), Err(SaveFailed(k.1)))
  }

  datatype Call = Call(env: Env, jobId: string)

  /** Calls one after another, for any jobs. */
  function Run(w: World, limits: Limits, calls: seq<Call>): World
    decreases |calls|
  {
    if calls == [] then w
    else
      var last := calls[|calls| - 1];
      Process(Run(w, limits, calls[..|calls| - 1]), last.env, limits, last.jobId).0
  }
}
