/** Runs of one application through the guarded workflow functions
    (internal/application/workflow.go, internal/application/safety_gate.go, internal/application/state.go). */
module Workflow {
  import opened Answers
  import opened Lifecycle
  import opened Provenance
  import opened SafetyGate
  import Scoring
  import opened Wrappers

  datatype ResumeStatus = Draft | Generated | Validated | ResumeReview | Approved | Rejected

  datatype Version = Version(id: string, status: ResumeStatus)

  datatype Refusal =
    | NotRecommended(recommendation: Scoring.Recommendation)
    | ResumeNotUsable(status: ResumeStatus)
    | GateFailed(reasons: seq<GateReason>)
    | InvalidTransition(from: Status, to: Status)

  datatype Result = Ok(application: Application) | Refused(why: Refusal)

  function Transition(a: Application, to: Status): Result {
    if ValidTransition(a.status, to) then Ok(a.(status := to)) else Refused(InvalidTransition(a.status, to))
  }

  function FromJob(id: nat, jobId: string, profileId: string): Application {
    Application(id, jobId, profileId, "", [], Discovered, None)
  }

  function Qualify(a: Application, score: Scoring.Score): Result {
    if score.recommendation != Scoring.Apply then Refused(NotRecommended(score.recommendation))
    else Transition(a, Qualified)
  }

  function StartPreparing(a: Application): Result {
    Transition(a, Preparing)
  }

  predicate Usable(v: Version) {
    v.status == Validated || v.status == Approved
  }

  function AttachResume(a: Application, v: Version): Result {
    if !Usable(v) then Refused(ResumeNotUsable(v.status))
    else Transition(a.(resumeVersionId := v.id), InReview)
  }

  function MakeReady(a: Application, gate: GateResult): Result {
    if !gate.passed then Refused(GateFailed(gate.reasons))
    else Transition(a.(safetyGate := Some(gate)), Ready)
  }

  datatype Op =
    | DoQualify(score: Scoring.Score)
    | DoPrepare
    | DoAttach(version: Version)
    | DoReady(gate: GateResult)
    | DoMove(to: Status)
    | DoAnswer(answers: seq<Answer>)

  /** Answers are written by the caller on the value itself, in any status; the package has no function
      for it. */
  function Perform(a: Application, op: Op): Result {
    match op
    case DoQualify(score) => Qualify(a, score)
    case DoPrepare => StartPreparing(a)
    case DoAttach(version) => AttachResume(a, version)
    case DoReady(gate) => MakeReady(a, gate)
    case DoMove(to) => Transition(a, to)
    case DoAnswer(answers) => Ok(a.(answers := answers))
  }

  /** An application, the operations that succeeded, and the statuses it went through. A refused
      operation leaves the caller with the application it had. */
  datatype History = History(application: Application, done: seq<Op>, trace: seq<Status>)

  function Begin(a: Application): History {
    History(a, [], [a.status])
  }

  function Step(h: History, op: Op): History {
    match Perform(h.application, op)
    case Ok(a) => History(a, h.done + [op], if op.DoAnswer? then h.trace else h.trace + [a.status])
    case Refused(_) => h
  }

  function Run(h: History, ops: seq<Op>): History
    decreases |ops|
  {
    if ops == [] then h else Step(Run(h, ops[..|ops| - 1]), ops[|ops| - 1])
  }

  /** The caller discipline: these four are entered only through their own functions. */
  predicate Guarded(op: Op) {
    op.DoMove? ==> op.to !in {Qualified, Preparing, InReview, Ready}
  }

  // Runs are paths

  lemma StepIsPath(h: History, op: Op)
    requires IsPath(h.trace) && h.trace[|h.trace| - 1] == h.application.status
    ensures var h2 := Step(h, op);
      IsPath(h2.trace) && h2.trace[0] == h.trace[0] && h2.trace[|h2.trace| - 1] == h2.application.status
  {
    var h2 := Step(h, op);
    if h2.trace != h.trace {
      StepOn(h.trace, h2.application.status);
    }
  }

  /** Guarded or not, the statuses of a run form a path of the state machine. */
  lemma {:induction false} RunIsPath(a: Application, ops: seq<Op>)
    ensures var h := Run(Begin(a), ops); PathBetween(h.trace, a.status, h.application.status)
    decreases |ops|
  {
    if ops != [] {
      RunIsPath(a, ops[..|ops| - 1]);
      StepIsPath(Run(Begin(a), ops[..|ops| - 1]), ops[|ops| - 1]);
    }
  }

  // What guarded runs keep

  /** READY and everything only reachable through it, CANCELLED apart. */
  predicate Beyond(s: Status) {
    !s.Discovered? && !s.Qualified? && !s.Preparing? && !s.InReview? && !s.Cancelled?
  }

  function ReadyCount(done: seq<Op>): nat {
    if done == [] then 0 else ReadyCount(done[..|done| - 1]) + if done[|done| - 1].DoReady? then 1 else 0
  }

  function QualifyCount(done: seq<Op>): nat {
    if done == [] then 0 else QualifyCount(done[..|done| - 1]) + if done[|done| - 1].DoQualify? then 1 else 0
  }

  lemma CountsOn(done: seq<Op>, op: Op)
    ensures ReadyCount(done + [op]) == ReadyCount(done) + if op.DoReady? then 1 else 0
    ensures QualifyCount(done + [op]) == QualifyCount(done) + if op.DoQualify? then 1 else 0
  {
    assert (done + [op])[..|done|] == done;
  }

  /** Every operation that succeeded met its guard. */
  predicate GuardMet(op: Op) {
    match op
    case DoQualify(score) => score.recommendation == Scoring.Apply
    case DoPrepare => true
    case DoAttach(version) => Usable(version)
    case DoReady(gate) => gate.passed
    case DoMove(_) => true
    case DoAnswer(_) => true
  }

  /** The last resume attached. */
  function LastAttached(done: seq<Op>): Maybe<Version> {
    if done == [] then None
    else if done[|done| - 1].DoAttach? then Some(done[|done| - 1].version)
    else LastAttached(done[..|done| - 1])
  }

  ghost predicate GateSound(h: History) {
    var a := h.application;
    && ReadyCount(h.done) == (if a.safetyGate.Some? then 1 else 0)
    && (a.safetyGate.Some? ==> a.safetyGate.value.passed && DoReady(a.safetyGate.value) in h.done)
    && (a.safetyGate.Some? ==> Beyond(a.status) || a.status == Cancelled)
    && (Beyond(a.status) ==> a.safetyGate.Some?)
  }

  ghost predicate QualifySound(h: History) {
    var s := h.application.status;
    && QualifyCount(h.done) <= 1
    && (s == Discovered ==> QualifyCount(h.done) == 0)
    && (s != Discovered && s != Cancelled ==> QualifyCount(h.done) == 1)
  }

  ghost predicate ResumeSound(h: History) {
    var a := h.application;
    && (a.status == InReview || Beyond(a.status) ==> LastAttached(h.done).Some?)
    && (LastAttached(h.done).Some? ==>
          && a.resumeVersionId == LastAttached(h.done).value.id
          && Usable(LastAttached(h.done).value))
  }

  ghost predicate HistorySound(h: History) {
    GateSound(h) && QualifySound(h) && ResumeSound(h) && forall op | op in h.done :: GuardMet(op)
  }

  /** Only Ready leads beyond, from REVIEW; from beyond only CANCELLED leads out. */
  lemma OnlyReadyLeadsBeyond(a: Application, op: Op, b: Application)
    requires Perform(a, op) == Ok(b) && Guarded(op) && !op.DoAnswer?
    ensures a.status != Cancelled
    ensures op.DoReady? ==> !Beyond(a.status) && b.status == Ready && b.safetyGate == Some(op.gate) && op.gate.passed
    ensures !op.DoReady? ==> b.safetyGate == a.safetyGate && (Beyond(b.status) ==> Beyond(a.status))
    ensures Beyond(a.status) ==> Beyond(b.status) || b.status == Cancelled
  {
  }

  lemma GateKept(h: History, op: Op)
    requires GateSound(h) && Guarded(op)
    ensures GateSound(Step(h, op))
  {
    match Perform(h.application, op)
    case Refused(_) =>
    case Ok(b) =>
      if op.DoAnswer? {
        CountsOn(h.done, op);
        assert (h.done + [op])[..|h.done|] == h.done;
      } else {
        OnlyReadyLeadsBeyond(h.application, op, b);
        GateKeptBy(h, op, b);
      }
  }

  lemma GateKeptBy(h: History, op: Op, b: Application)
    requires GateSound(h) && h.application.status != Cancelled
    requires op.DoReady? ==>
      && !Beyond(h.application.status) && b.status == Ready
      && b.safetyGate == Some(op.gate) && op.gate.passed
    requires !op.DoReady? ==>
      && b.safetyGate == h.application.safetyGate
      && (Beyond(b.status) ==> Beyond(h.application.status))
    requires Beyond(h.application.status) ==> Beyond(b.status) || b.status == Cancelled
    ensures GateSound(History(b, h.done + [op], h.trace + [b.status]))
  {
    CountsOn(h.done, op);
    assert (h.done + [op])[|h.done|] == op;
  }

  /** DISCOVERED is left by Qualify or for CANCELLED, and Qualify leads nowhere else. */
  lemma OnlyQualifyLeavesDiscovered(a: Application, op: Op, b: Application)
    requires Perform(a, op) == Ok(b) && Guarded(op) && !op.DoAnswer?
    ensures a.status != Cancelled && b.status != Discovered
    ensures op.DoQualify? ==> a.status == Discovered && b.status == Qualified
    ensures !op.DoQualify? && a.status == Discovered ==> b.status == Cancelled
  {
  }

  lemma QualifyKept(h: History, op: Op)
    requires QualifySound(h) && Guarded(op)
    ensures QualifySound(Step(h, op))
  {
    match Perform(h.application, op)
    case Refused(_) =>
    case Ok(b) =>
      if op.DoAnswer? {
        CountsOn(h.done, op);
      } else {
        OnlyQualifyLeavesDiscovered(h.application, op, b);
        QualifyKeptBy(h, op, b);
      }
  }

  lemma QualifyKeptBy(h: History, op: Op, b: Application)
    requires QualifySound(h) && h.application.status != Cancelled && b.status != Discovered
    requires op.DoQualify? ==> h.application.status == Discovered
    requires !op.DoQualify? && h.application.status == Discovered ==> b.status == Cancelled
    ensures QualifySound(History(b, h.done + [op], h.trace + [b.status]))
  {
    CountsOn(h.done, op);
  }

  lemma ResumeKept(h: History, op: Op)
    requires ResumeSound(h) && Guarded(op)
    ensures ResumeSound(Step(h, op))
  {
    assert (h.done + [op])[..|h.done|] == h.done;
  }

  lemma {:induction false} HistoryKept(h: History, ops: seq<Op>)
    requires HistorySound(h) && forall op | op in ops :: Guarded(op)
    ensures HistorySound(Run(h, ops))
    decreases |ops|
  {
    if ops != [] {
      var front, last := ops[..|ops| - 1], ops[|ops| - 1];
      assert last in ops;
      HistoryKept(h, front);
      var m := Run(h, front);
      GateKept(m, last);
      QualifyKept(m, last);
      ResumeKept(m, last);
    }
  }

  /** In any guarded run from FromJob, an application in READY or any state after it other than
      CANCELLED carries a passed gate, and it was set exactly once; it was qualified exactly once,
      on an APPLY score; and its resume is the last one attached, which was VALIDATED or APPROVED. */
  lemma ReadyIsEarned(id: nat, jobId: string, profileId: string, ops: seq<Op>)
    requires forall op | op in ops :: Guarded(op)
    requires Beyond(Run(Begin(FromJob(id, jobId, profileId)), ops).application.status)
    ensures var h := Run(Begin(FromJob(id, jobId, profileId)), ops);
            var a := h.application;
      && a.safetyGate.Some? && a.safetyGate.value.passed
      && ReadyCount(h.done) == 1 && DoReady(a.safetyGate.value) in h.done
      && QualifyCount(h.done) == 1
      && (forall op | op in h.done && op.DoQualify? :: op.score.recommendation == Scoring.Apply)
      && LastAttached(h.done).Some? && Usable(LastAttached(h.done).value)
      && a.resumeVersionId == LastAttached(h.done).value.id
  {
    HistoryKept(Begin(FromJob(id, jobId, profileId)), ops);
  }

  // Answers and gates

  /** The gate was computed by EvaluateSafetyGate from an input with these answers. */
  ghost predicate Evaluated(gate: GateResult, answers: seq<Answer>) {
    exists input :: IsVerdict(input, gate) && input.application.answers == answers
  }

  ghost predicate AllClassified(answers: seq<Answer>, claims: seq<Claim>) {
    exists raw :: answers == ClassifiedAll(raw, claims)
  }

  /** Every answer is AUTO, outside the always-review categories, and rests on allowed claims only. */
  predicate AllSupported(answers: seq<Answer>, claims: seq<Claim>) {
    forall a | a in answers :: a.status == Auto && Supported(a, claims)
  }

  /** The answer discipline: answers come from Classify over one claim list, and are not replaced once
      the application is ready; a gate handed to Ready was evaluated on the answers carried then. */
  ghost predicate Fresh(h: History, op: Op, claims: seq<Claim>) {
    match op
    case DoReady(gate) => Evaluated(gate, h.application.answers)
    case DoAnswer(answers) => AllClassified(answers, claims) && !Beyond(h.application.status)
    case _ => true
  }

  ghost predicate FreshRun(h: History, ops: seq<Op>, claims: seq<Claim>)
    decreases |ops|
  {
    ops == [] ||
    var front, last := ops[..|ops| - 1], ops[|ops| - 1];
    FreshRun(h, front, claims) && Guarded(last) && Fresh(Run(h, front), last, claims)
  }

  ghost predicate AnswersSound(a: Application, claims: seq<Claim>) {
    AllClassified(a.answers, claims) && (Beyond(a.status) ==> AllSupported(a.answers, claims))
  }

  lemma PassedMeansSupported(gate: GateResult, answers: seq<Answer>, claims: seq<Claim>)
    requires gate.passed && Evaluated(gate, answers) && AllClassified(answers, claims)
    ensures AllSupported(answers, claims)
  {
    var input :| IsVerdict(input, gate) && input.application.answers == answers;
    var raw :| answers == ClassifiedAll(raw, claims);
    PassedIffAllSupported(input, gate, raw, claims);
    forall a | a in answers ensures a.status == Auto && Supported(a, claims) {
      var i :| 0 <= i < |answers| && answers[i] == a;
      assert raw[i] in raw;
      AutoIff(raw[i], claims);
    }
  }

  lemma AnswersKept(h: History, op: Op, claims: seq<Claim>)
    requires AnswersSound(h.application, claims) && Guarded(op) && Fresh(h, op, claims)
    ensures AnswersSound(Step(h, op).application, claims)
  {
    match Perform(h.application, op)
    case Refused(_) =>
    case Ok(b) =>
      if op.DoReady? {
        PassedMeansSupported(op.gate, h.application.answers, claims);
      } else if !op.DoAnswer? {
        OnlyReadyLeadsBeyond(h.application, op, b);
      }
  }

  lemma {:induction false} AnswersKeptThroughout(h: History, ops: seq<Op>, claims: seq<Claim>)
    requires AnswersSound(h.application, claims) && FreshRun(h, ops, claims)
    ensures AnswersSound(Run(h, ops).application, claims)
    decreases |ops|
  {
    if ops != [] {
      var front := ops[..|ops| - 1];
      AnswersKeptThroughout(h, front, claims);
      AnswersKept(Run(h, front), ops[|ops| - 1], claims);
    }
  }

  /** The parts together: in any guarded run from FromJob that keeps the answer discipline, with
      answers written and rewritten at any time before READY, the answers an application carries in
      READY or beyond are all AUTO, none is in an always-review category, and all their claims are
      allowed. */
  lemma BeyondReadyAnswersAreSupported(
      id: nat, jobId: string, profileId: string, ops: seq<Op>, claims: seq<Claim>)
    requires FreshRun(Begin(FromJob(id, jobId, profileId)), ops, claims)
    requires Beyond(Run(Begin(FromJob(id, jobId, profileId)), ops).application.status)
    ensures AllSupported(Run(Begin(FromJob(id, jobId, profileId)), ops).application.answers, claims)
  {
    assert ClassifiedAll([], claims) == [];
    AnswersKeptThroughout(Begin(FromJob(id, jobId, profileId)), ops, claims);
  }

  lemma RunOn(h: History, ops: seq<Op>, op: Op)
    ensures Run(h, ops + [op]) == Step(Run(h, ops), op)
  {
    assert (ops + [op])[..|ops|] == ops;
  }

  /** The clause on gates is needed: Ready takes any gate. One that was evaluated before an answer was
      written and classified makes the application ready with that answer still in REVIEW. */
  lemma StaleGateIsAccepted(
      id: nat, jobId: string, profileId: string, score: Scoring.Score, v: Version, gate: GateResult, a: Answer)
    requires score.recommendation == Scoring.Apply && Usable(v)
    requires gate.passed && Evaluated(gate, []) && AlwaysReview(a.category)
    ensures var answer := DoAnswer([Classified(a, [])]);
            var ops := [DoQualify(score)] + [DoPrepare] + [DoAttach(v)] + [answer] + [DoReady(gate)];
            var ready := Run(Begin(FromJob(id, jobId, profileId)), ops).application;
      && (forall op | op in ops :: Guarded(op))
      && ready.status == Ready && ready.safetyGate == Some(gate)
      && ready.answers == [Classified(a, [])] && Classified(a, []).status == NeedsReview
  {
    var h := Begin(FromJob(id, jobId, profileId));
    var answer := DoAnswer([Classified(a, [])]);
    var o1 := [DoQualify(score)];
    RunOn(h, [], DoQualify(score));
    assert [] + [DoQualify(score)] == o1;
    RunOn(h, o1, DoPrepare);
    RunOn(h, o1 + [DoPrepare], DoAttach(v));
    RunOn(h, o1 + [DoPrepare] + [DoAttach(v)], answer);
    RunOn(h, o1 + [DoPrepare] + [DoAttach(v)] + [answer], DoReady(gate));
    AutoIff(a, []);
  }

  // Any gate at all

  /** Answers come from Classify over one claim list and are not replaced once the application is ready;
      gates may come from anywhere. */
  ghost predicate Timely(h: History, op: Op, claims: seq<Claim>) {
    op.DoAnswer? ==> AllClassified(op.answers, claims) && !Beyond(h.application.status)
  }

  ghost predicate TimelyRun(h: History, ops: seq<Op>, claims: seq<Claim>)
    decreases |ops|
  {
    ops == [] ||
    var front, last := ops[..|ops| - 1], ops[|ops| - 1];
    TimelyRun(h, front, claims) && Guarded(last) && Timely(Run(h, front), last, claims)
  }

  lemma {:induction false} RunAppend(h: History, ops: seq<Op>, more: seq<Op>)
    ensures Run(h, ops + more) == Run(Run(h, ops), more)
    decreases |more|
  {
    if more == [] {
      assert ops + more == ops;
    } else {
      RunAppend(h, ops, more[..|more| - 1]);
      assert (ops + more)[..|ops + more| - 1] == ops + more[..|more| - 1];
    }
  }

  lemma {:induction false} TimelyAppend(h: History, ops: seq<Op>, more: seq<Op>, claims: seq<Claim>)
    ensures TimelyRun(h, ops + more, claims) <==> TimelyRun(h, ops, claims) && TimelyRun(Run(h, ops), more, claims)
    decreases |more|
  {
    if more == [] {
      assert ops + more == ops;
    } else {
      var front := more[..|more| - 1];
      TimelyAppend(h, ops, front, claims);
      RunAppend(h, ops, front);
      assert (ops + more)[..|ops + more| - 1] == ops + front;
    }
  }

  lemma {:induction false} ClassifiedThroughout(h: History, ops: seq<Op>, claims: seq<Claim>)
    requires AllClassified(h.application.answers, claims) && TimelyRun(h, ops, claims)
    ensures AllClassified(Run(h, ops).application.answers, claims)
    decreases |ops|
  {
    if ops != [] {
      ClassifiedThroughout(h, ops[..|ops| - 1], claims);
    }
  }

  /** Beyond READY the answers stay as they are, unless the application is cancelled. */
  lemma {:induction false} AnswersFrozen(h: History, ops: seq<Op>, claims: seq<Claim>)
    requires Beyond(h.application.status) && TimelyRun(h, ops, claims)
    ensures var a := Run(h, ops).application;
      a.status == Cancelled || (Beyond(a.status) && a.answers == h.application.answers)
    decreases |ops|
  {
    if ops != [] {
      var front, last := ops[..|ops| - 1], ops[|ops| - 1];
      AnswersFrozen(h, front, claims);
      var m := Run(h, front);
      match Perform(m.application, last)
      case Refused(_) =>
      case Ok(b) =>
        if !last.DoAnswer? {
          OnlyReadyLeadsBeyond(m.application, last, b);
        }
    }
  }

  /** Of classified answers, the supported ones are those that need no review. */
  lemma SupportedIffNoneInReview(answers: seq<Answer>, claims: seq<Claim>)
    requires AllClassified(answers, claims)
    ensures AllSupported(answers, claims) <==> forall x | x in answers :: x.status != NeedsReview
  {
    var raw :| answers == ClassifiedAll(raw, claims);
    forall x | x in answers ensures x.status == Auto && Supported(x, claims) <==> x.status != NeedsReview {
      var i :| 0 <= i < |answers| && answers[i] == x;
      AutoIff(raw[i], claims);
    }
  }

  /** Exactly when Ready does what the gate is for, whatever gate it is handed: in any guarded run from
      FromJob with classified answers that are not replaced once ready, an application carries the
      answers it had when Ready succeeded, and they are all AUTO, outside the always-review categories
      and rest on allowed claims, if and only if none of them was in REVIEW at that moment. */
  lemma ReadyAnswersSupportedIff(
      id: nat, jobId: string, profileId: string, before: seq<Op>, gate: GateResult, after: seq<Op>, claims: seq<Claim>)
    requires TimelyRun(Begin(FromJob(id, jobId, profileId)), before + [DoReady(gate)] + after, claims)
    requires MakeReady(Run(Begin(FromJob(id, jobId, profileId)), before).application, gate).Ok?
    requires Beyond(Run(Begin(FromJob(id, jobId, profileId)), before + [DoReady(gate)] + after).application.status)
    ensures var carried := Run(Begin(FromJob(id, jobId, profileId)), before).application.answers;
            var ready := Run(Begin(FromJob(id, jobId, profileId)), before + [DoReady(gate)] + after).application;
      && ready.answers == carried
      && (AllSupported(ready.answers, claims) <==> forall x | x in carried :: x.status != NeedsReview)
  {
    var h := Begin(FromJob(id, jobId, profileId));
    var m := Run(h, before);
    assert ClassifiedAll([], claims) == [];
    TimelyAppend(h, before + [DoReady(gate)], after, claims);
    TimelyAppend(h, before, [DoReady(gate)], claims);
    RunAppend(h, before + [DoReady(gate)], after);
    RunOn(h, before, DoReady(gate));
    ClassifiedThroughout(h, before, claims);
    AnswersFrozen(Step(m, DoReady(gate)), after, claims);
    SupportedIffNoneInReview(m.application.answers, claims);
  }

  /** A SUBMITTED application went through every milestone, in order. */
  lemma SubmittedWentThroughAll(id: nat, jobId: string, profileId: string, ops: seq<Op>)
    requires Run(Begin(FromJob(id, jobId, profileId)), ops).application.status == Submitted
    ensures var trace := Run(Begin(FromJob(id, jobId, profileId)), ops).trace;
      && (forall k | 0 <= k < |MILESTONES| :: MILESTONES[k] in trace)
      && (forall k | 1 <= k < |MILESTONES| - 1 :: First(trace, MILESTONES[k]) < First(trace, MILESTONES[k + 1]))
      && !Revisits(trace, Ready) && !Revisits(trace, Submitting)
  {
    var trace := Run(Begin(FromJob(id, jobId, profileId)), ops).trace;
    RunIsPath(FromJob(id, jobId, profileId), ops);
    MilestonesInOrder(trace);
    assert trace[0] == MILESTONES[0];
    RevisitedIff(Ready);
    RevisitedIff(Submitting);
  }

  /** The discipline is needed: plain transitions alone reach READY with no gate, no score and no
      resume. */
  lemma PlainTransitionsSkipTheGate(id: nat, jobId: string, profileId: string)
    ensures var ops := [DoMove(Qualified), DoMove(Preparing), DoMove(InReview), DoMove(Ready)];
            var a := Run(Begin(FromJob(id, jobId, profileId)), ops).application;
      a.status == Ready && a.safetyGate.None? && a.resumeVersionId == ""
  {
    var h := Begin(FromJob(id, jobId, profileId));
    var o1, o2, o3, o4 := DoMove(Qualified), DoMove(Preparing), DoMove(InReview), DoMove(Ready);
    assert [o1][..0] == [] && [o1, o2][..1] == [o1];
    assert [o1, o2, o3][..2] == [o1, o2] && [o1, o2, o3, o4][..3] == [o1, o2, o3];
    assert Run(h, [o1]) == Step(h, o1);
    assert Run(h, [o1, o2]) == Step(Step(h, o1), o2);
    assert Run(h, [o1, o2, o3]) == Step(Step(Step(h, o1), o2), o3);
  }
}
