/** The gate before READY (internal/application/safety_gate.go). */
module SafetyGate {
  import opened Provenance
  import opened Answers
  import opened Lifecycle
  import opened Wrappers

  datatype Application = Application(
    id: nat, jobId: string, profileId: string, resumeVersionId: string,
    answers: seq<Answer>, status: Status, safetyGate: Maybe<GateResult>)

  /** OtherPolicy is any other text, the empty one included. */
  datatype PlatformPolicy = UnknownPolicy | AllowedPolicy | DeniedPolicy | OtherPolicy(text: string)

  datatype GateInput = GateInput(
    application: Application, jobVerified: bool, resumeVerified: bool, isDuplicate: bool,
    platform: PlatformPolicy, submittedToday: int, dailyLimit: int)

  datatype GateReason =
    | JobNotVerified | ResumeNotVerified | UnresolvedReview | DuplicateApplication
    | PlatformUnknown | PlatformDenied | DailyLimitReached(limit: int)

  datatype GateResult = GateResult(passed: bool, reasons: seq<GateReason>)

  /** When a check fails. */
  predicate Blocks(input: GateInput, r: GateReason) {
    match r
    case JobNotVerified => !input.jobVerified
    case ResumeNotVerified => !input.resumeVerified
    case UnresolvedReview => exists a | a in input.application.answers :: a.status == NeedsReview
    case DuplicateApplication => input.isDuplicate
    case PlatformUnknown => input.platform == UnknownPolicy
    case PlatformDenied => input.platform == DeniedPolicy
    case DailyLimitReached(n) => n == input.dailyLimit && 0 < n <= input.submittedToday
  }

  /** The order in which the checks run. */
  function CheckOrder(r: GateReason): nat {
    match r
    case JobNotVerified => 0
    case ResumeNotVerified => 1
    case UnresolvedReview => 2
    case DuplicateApplication => 3
    case PlatformUnknown => 4
    case PlatformDenied => 5
    case DailyLimitReached(_) => 6
  }

  predicate InCheckOrder(reasons: seq<GateReason>) {
    forall i, j | 0 <= i < j < |reasons| :: CheckOrder(reasons[i]) < CheckOrder(reasons[j])
  }

  ghost predicate IsVerdict(input: GateInput, g: GateResult) {
    && (g.passed <==> forall r :: !Blocks(input, r))
    && (forall r :: r in g.reasons <==> Blocks(input, r))
    && InCheckOrder(g.reasons)
  }

  /** The reasons of the first n checks. */
  ghost predicate ReasonsOfFirst(n: nat, input: GateInput, reasons: seq<GateReason>) {
    InCheckOrder(reasons) && forall r :: r in reasons <==> Blocks(input, r) && CheckOrder(r) < n
  }

  lemma NextCheck(input: GateInput, reasons: seq<GateReason>, r: GateReason)
    requires ReasonsOfFirst(CheckOrder(r), input, reasons)
    requires r.DailyLimitReached? ==> r.limit == input.dailyLimit
    ensures ReasonsOfFirst(CheckOrder(r) + 1, input, if Blocks(input, r) then reasons + [r] else reasons)
  {
    assert forall i | 0 <= i < |reasons| :: reasons[i] in reasons;
    forall q | CheckOrder(q) == CheckOrder(r) && Blocks(input, q) ensures q == r {
    }
  }

  /** Grows the reasons check by check. */
  method EvaluateSafetyGate(input: GateInput) returns (g: GateResult)
    ensures IsVerdict(input, g)
  {
    var reasons := [];
    NextCheck(input, reasons, JobNotVerified);
    if !input.jobVerified {
      reasons := reasons + [JobNotVerified];
    }
    NextCheck(input, reasons, ResumeNotVerified);
    if !input.resumeVerified {
      reasons := reasons + [ResumeNotVerified];
    }
    NextCheck(input, reasons, UnresolvedReview);
    var unresolved := HasUnresolvedReview(input.application.answers);
    if unresolved {
      reasons := reasons + [UnresolvedReview];
    }
    reasons := EvaluateLateChecks(input, reasons);
    g := GateResult(|reasons| == 0, reasons);
    VerdictOf(input, g);
  }

  lemma NoReasonOf(input: GateInput, reasons: seq<GateReason>, r: GateReason)
    requires ReasonsOfFirst(CheckOrder(r), input, reasons) && !Blocks(input, r)
    requires r.DailyLimitReached? ==> r.limit == input.dailyLimit
    ensures ReasonsOfFirst(CheckOrder(r) + 1, input, reasons)
  {
    NextCheck(input, reasons, r);
  }

  lemma ReasonOf(input: GateInput, reasons: seq<GateReason>, r: GateReason)
    requires ReasonsOfFirst(CheckOrder(r), input, reasons) && Blocks(input, r)
    requires r.DailyLimitReached? ==> r.limit == input.dailyLimit
    ensures ReasonsOfFirst(CheckOrder(r) + 1, input, reasons + [r])
  {
    NextCheck(input, reasons, r);
  }

  /** Two checks, of which at most one fails. */
  method CheckPlatform(input: GateInput, early: seq<GateReason>) returns (reasons: seq<GateReason>)
    requires ReasonsOfFirst(4, input, early)
    ensures ReasonsOfFirst(6, input, reasons)
  {
    reasons := early;
    if input.platform == UnknownPolicy {
      ReasonOf(input, reasons, PlatformUnknown);
      reasons := reasons + [PlatformUnknown];
      NoReasonOf(input, reasons, PlatformDenied);
    } else if input.platform == DeniedPolicy {
      NoReasonOf(input, reasons, PlatformUnknown);
      ReasonOf(input, reasons, PlatformDenied);
      reasons := reasons + [PlatformDenied];
    } else {
      NoReasonOf(input, reasons, PlatformUnknown);
      NoReasonOf(input, reasons, PlatformDenied);
    }
  }

  method CheckDailyLimit(input: GateInput, early: seq<GateReason>) returns (reasons: seq<GateReason>)
    requires ReasonsOfFirst(6, input, early)
    ensures ReasonsOfFirst(7, input, reasons)
  {
    reasons := early;
    NextCheck(input, reasons, DailyLimitReached(input.dailyLimit));
    if input.dailyLimit > 0 && input.submittedToday >= input.dailyLimit {
      reasons := reasons + [DailyLimitReached(input.dailyLimit)];
    }
  }

  /** The last checks: duplicate, platform, daily limit. */
  method EvaluateLateChecks(input: GateInput, early: seq<GateReason>) returns (reasons: seq<GateReason>)
    requires ReasonsOfFirst(3, input, early)
    ensures ReasonsOfFirst(7, input, reasons)
  {
    reasons := early;
    NextCheck(input, reasons, DuplicateApplication);
    if input.isDuplicate {
      reasons := reasons + [DuplicateApplication];
    }
    reasons := CheckPlatform(input, reasons);
    reasons := CheckDailyLimit(input, reasons);
  }

  lemma VerdictOf(input: GateInput, g: GateResult)
    requires ReasonsOfFirst(7, input, g.reasons) && (g.passed <==> g.reasons == [])
    ensures IsVerdict(input, g)
  {
    if !g.passed {
      assert g.reasons[0] in g.reasons;
    }
  }

  lemma {:induction false} OrderedReasonsEqual(a: seq<GateReason>, b: seq<GateReason>)
    requires InCheckOrder(a) && InCheckOrder(b) && forall r :: r in a <==> r in b
    ensures a == b
    decreases |a|
  {
    if a == [] {
      NoMembers(b);
    } else {
      assert a[0] in a && a[0] in b && b[0] in a;
      var i :| 0 <= i < |a| && a[i] == b[0];
      var j :| 0 <= j < |b| && b[j] == a[0];
      assert i == 0 && j == 0;
      assert a == [a[0]] + a[1..] && b == [b[0]] + b[1..];
      forall r ensures r in a[1..] <==> r in b[1..] {
        RestMembers(a, r);
        RestMembers(b, r);
      }
      OrderedReasonsEqual(a[1..], b[1..]);
    }
  }

  lemma NoMembers(b: seq<GateReason>)
    ensures b == [] <==> forall r :: r !in b
  {
    assert b != [] ==> b[0] in b;
  }

  lemma RestMembers(a: seq<GateReason>, r: GateReason)
    requires InCheckOrder(a) && a != []
    ensures r in a[1..] <==> r in a && r != a[0]
  {
    assert a == [a[0]] + a[1..];
  }

  /** Two verdicts on one input are equal, reasons and their order included. */
  lemma VerdictIsUnique(input: GateInput, g: GateResult, h: GateResult)
    requires IsVerdict(input, g) && IsVerdict(input, h)
    ensures g == h
  {
    OrderedReasonsEqual(g.reasons, h.reasons);
  }

  function ClassifiedAll(answers: seq<Answer>, claims: seq<Claim>): seq<Answer> {
    seq(|answers|, i requires 0 <= i < |answers| => Classified(answers[i], claims))
  }

  /** The checks that do not look at answers. */
  predicate OtherChecksHold(input: GateInput) {
    && input.jobVerified && input.resumeVerified && !input.isDuplicate
    && input.platform != UnknownPolicy && input.platform != DeniedPolicy
    && !(0 < input.dailyLimit <= input.submittedToday)
  }

  /** No check fails exactly when the other checks hold and no answer is in REVIEW: of the answers only
      that status counts. */
  lemma BlocksNothingIff(input: GateInput)
    ensures (forall r :: !Blocks(input, r))
        <==> OtherChecksHold(input) && forall a | a in input.application.answers :: a.status != NeedsReview
  {
    if forall r :: !Blocks(input, r) {
      assert !Blocks(input, JobNotVerified) && !Blocks(input, ResumeNotVerified) && !Blocks(input, UnresolvedReview);
      assert !Blocks(input, DuplicateApplication) && !Blocks(input, PlatformUnknown) && !Blocks(input, PlatformDenied);
      assert !Blocks(input, DailyLimitReached(input.dailyLimit));
    }
  }

  /** If all answers came from Classify over one claim list, the gate passes exactly when the other
      checks hold and every answer is supported; then every answer is AUTO, none is in an
      always-review category, and every referenced claim is allowed. */
  lemma PassedIffAllSupported(input: GateInput, g: GateResult, raw: seq<Answer>, claims: seq<Claim>)
    requires IsVerdict(input, g) && input.application.answers == ClassifiedAll(raw, claims)
    ensures g.passed <==> OtherChecksHold(input) && forall a | a in raw :: Supported(a, claims)
    ensures g.passed ==> forall a | a in input.application.answers ::
      && a.status == Auto && !AlwaysReview(a.category) && a.claimIds != []
      && forall id | id in a.claimIds :: IsAllowed(claims, id)
  {
    BlocksNothingIff(input);
    var answers := input.application.answers;
    forall i | 0 <= i < |raw|
      ensures answers[i] == Classified(raw[i], claims)
      ensures answers[i].status != NeedsReview <==> Supported(raw[i], claims)
      ensures answers[i].status == Auto <==> Supported(raw[i], claims)
    {
      AutoIff(raw[i], claims);
    }
    if forall a | a in answers :: a.status != NeedsReview {
      forall a | a in raw ensures Supported(a, claims) {
        var i :| 0 <= i < |raw| && raw[i] == a;
        assert answers[i] in answers;
      }
    }
    if forall a | a in raw :: Supported(a, claims) {
      forall a | a in answers ensures a.status == Auto && Supported(a, claims) {
        var i :| 0 <= i < |answers| && answers[i] == a;
        assert raw[i] in raw;
      }
    }
  }

  /** The premise on Classify is needed: of the answers the gate reads the REVIEW status only, so answers
      that were never classified never stop it, however sensitive or unsupported they are. */
  lemma UnclassifiedAnswerPasses(input: GateInput, g: GateResult)
    requires IsVerdict(input, g)
    ensures g.passed <==> OtherChecksHold(input) && forall a | a in input.application.answers :: a.status != NeedsReview
    ensures (forall a | a in input.application.answers :: a.status == Unset) ==> (g.passed <==> OtherChecksHold(input))
  {
    BlocksNothingIff(input);
  }
}
