/** The application state machine and its paths (internal/application/state.go). */
module Lifecycle {

  datatype Status =
    | Discovered | Qualified | Preparing | InReview | Ready
    | Starting | Navigating | Filling | Verifying | Submitting
    | Submitted | HumanRequired | Failed | Expired | Cancelled

  function ValidTransitions(s: Status): set<Status> {
    match s
    case Discovered => {Qualified, Cancelled}
    case Qualified => {Preparing, Cancelled}
    case Preparing => {InReview, Cancelled}
    case InReview => {Ready, Preparing, Cancelled}
    case Ready => {Starting, Cancelled}
    case Starting => {Navigating, Failed, Cancelled}
    case Navigating => {Filling, HumanRequired, Failed}
    case Filling => {Verifying, HumanRequired, Failed}
    case Verifying => {Submitting, HumanRequired, Failed}
    case Submitting => {Submitted, Failed}
    case HumanRequired => {Navigating, Filling, Verifying, Expired, Cancelled}
    case Submitted => {}
    case Failed => {}
    case Expired => {}
    case Cancelled => {}
  }

  predicate ValidTransition(from: Status, to: Status) {
    to in ValidTransitions(from)
  }

  predicate StepAt(p: seq<Status>, i: nat)
    requires i + 1 < |p|
  {
    ValidTransition(p[i], p[i + 1])
  }

  predicate IsPath(p: seq<Status>) {
    p != [] && forall i | 0 <= i < |p| - 1 :: StepAt(p, i)
  }

  predicate PathBetween(p: seq<Status>, s: Status, t: Status) {
    IsPath(p) && p[0] == s && p[|p| - 1] == t
  }

  /** The index of the first visit. */
  function First(p: seq<Status>, s: Status): (i: nat)
    requires s in p
    ensures i < |p| && p[i] == s && forall j | 0 <= j < i :: p[j] != s
  {
    if p[0] == s then 0 else 1 + First(p[1..], s)
  }

  // What every path visits

  /** How far an application has come; dead ends count as nowhere. */
  function Level(s: Status): nat {
    match s
    case Discovered => 0
    case Qualified => 1
    case Preparing => 2
    case InReview => 3
    case Ready => 4
    case Starting => 5
    case Navigating => 6
    case Filling => 6
    case HumanRequired => 6
    case Verifying => 7
    case Submitting => 8
    case Submitted => 9
    case Failed => 0
    case Expired => 0
    case Cancelled => 0
  }

  const MILESTONES := [
    Discovered, Qualified, Preparing, InReview, Ready, Starting, Navigating, Verifying, Submitting, Submitted]

  /** A level is first reached at its milestone, from the level below. */
  lemma LevelsGrowByOne(s: Status, t: Status, k: nat)
    requires ValidTransition(s, t) && Level(s) < k <= Level(t)
    ensures k == Level(t) < |MILESTONES| && t == MILESTONES[k]
  {
  }

  lemma LevelEntered(p: seq<Status>, k: nat) returns (i: nat)
    requires IsPath(p) && p[0] == Discovered && 1 <= k <= Level(p[|p| - 1])
    ensures i < |p| && k < |MILESTONES| && p[i] == MILESTONES[k]
    ensures forall j | 0 <= j < i :: Level(p[j]) < k
  {
    i := 0;
    while Level(p[i]) < k
      invariant 0 <= i < |p|
      invariant forall j | 0 <= j < i :: Level(p[j]) < k
      decreases |p| - i
    {
      i := i + 1;
    }
    assert StepAt(p, i - 1);
    LevelsGrowByOne(p[i - 1], p[i], k);
  }

  lemma MilestoneVisited(p: seq<Status>, k: nat)
    requires IsPath(p) && p[0] == Discovered && 1 <= k <= Level(p[|p| - 1])
    ensures k < |MILESTONES| && MILESTONES[k] in p
    ensures forall j | 0 <= j < First(p, MILESTONES[k]) :: Level(p[j]) < k
  {
    var i := LevelEntered(p, k);
    var m := MILESTONES[k];
    assert First(p, m) <= i;
  }

  lemma FirstVisitsInOrder(p: seq<Status>, k: nat)
    requires IsPath(p) && p[0] == Discovered && 1 <= k < Level(p[|p| - 1])
    ensures k + 1 < |MILESTONES| && MILESTONES[k] in p && MILESTONES[k + 1] in p
    ensures First(p, MILESTONES[k]) < First(p, MILESTONES[k + 1])
  {
    MilestoneVisited(p, k);
    MilestoneVisited(p, k + 1);
    var i := First(p, MILESTONES[k]);
    var later := First(p, MILESTONES[k + 1]);
    assert Level(p[later]) == k + 1 && StepAt(p, later - 1);
    StepLevel(p[later - 1], p[later]);
    assert !(later - 1 < i);
  }

  /** Whatever status a path from DISCOVERED ends in, it has visited every milestone up to that
      status's level, with first visits in order. For SUBMITTED these are QUALIFIED, PREPARING,
      REVIEW, READY, STARTING, NAVIGATING, VERIFYING and SUBMITTING. */
  lemma MilestonesInOrder(p: seq<Status>)
    requires IsPath(p) && p[0] == Discovered
    ensures var n := Level(p[|p| - 1]);
      && n < |MILESTONES|
      && (forall k | 1 <= k <= n :: MILESTONES[k] in p)
      && (forall k | 1 <= k < n :: First(p, MILESTONES[k]) < First(p, MILESTONES[k + 1]))
  {
    var n := Level(p[|p| - 1]);
    forall k | 1 <= k <= n ensures MILESTONES[k] in p {
      MilestoneVisited(p, k);
    }
    forall k | 1 <= k < n ensures First(p, MILESTONES[k]) < First(p, MILESTONES[k + 1]) {
      FirstVisitsInOrder(p, k);
    }
  }

  lemma StepLevel(s: Status, t: Status)
    requires ValidTransition(s, t)
    ensures Level(t) <= Level(s) + 1
  {
  }

  const STRAIGHT := [
    Discovered, Qualified, Preparing, InReview, Ready, Starting, Navigating, Filling, Verifying, Submitting, Submitted]

  /** A human may finish the form, so FILLING is skipped. */
  const ASSISTED := [
    Discovered, Qualified, Preparing, InReview, Ready, Starting, Navigating, HumanRequired, Verifying, Submitting,
    Submitted]

  lemma BothArePaths()
    ensures PathBetween(STRAIGHT, Discovered, Submitted) && PathBetween(ASSISTED, Discovered, Submitted)
  {
    forall i | 0 <= i < 10 ensures StepAt(STRAIGHT, i) && StepAt(ASSISTED, i) {
      assert i in {0, 1, 2, 3, 4, 5, 6, 7, 8, 9};
    }
  }

  lemma MilestoneUnavoidable(p: seq<Status>, s: Status)
    requires PathBetween(p, Discovered, Submitted) && s in MILESTONES
    ensures s in p
  {
    MilestonesInOrder(p);
    if s == Discovered {
      assert p[0] == s;
    } else {
      assert MILESTONES[Level(s)] == s;
    }
  }

  /** Exactly the milestones are on every path from DISCOVERED to SUBMITTED. */
  lemma OnEveryPathIff(s: Status)
    ensures (forall p | PathBetween(p, Discovered, Submitted) :: s in p) <==> s in MILESTONES
  {
    if s in MILESTONES {
      forall p | PathBetween(p, Discovered, Submitted) ensures s in p {
        MilestoneUnavoidable(p, s);
      }
    } else {
      BothArePaths();
      assert s !in STRAIGHT || s !in ASSISTED;
    }
  }

  // What a path may visit twice

  /** Rises along every edge, strictly except inside the two loops. */
  function Rank(s: Status): nat {
    match s
    case Discovered => 0
    case Qualified => 1
    case Preparing => 2
    case InReview => 2
    case Ready => 3
    case Starting => 4
    case Navigating => 5
    case Filling => 5
    case Verifying => 5
    case HumanRequired => 5
    case Submitting => 6
    case Submitted => 7
    case Failed => 7
    case Expired => 7
    case Cancelled => 7
  }

  predicate InLoop(s: Status) {
    s in {Preparing, InReview, Navigating, Filling, Verifying, HumanRequired}
  }

  lemma {:induction false} RankRises(p: seq<Status>, i: nat, j: nat)
    requires IsPath(p) && i < j < |p|
    ensures Rank(p[i]) <= Rank(p[j]) && (!InLoop(p[i]) ==> Rank(p[i]) < Rank(p[j]))
    decreases j
  {
    assert StepAt(p, j - 1);
    assert Rank(p[j - 1]) <= Rank(p[j]) && (!InLoop(p[j - 1]) ==> Rank(p[j - 1]) < Rank(p[j]));
    if i < j - 1 {
      RankRises(p, i, j - 1);
    }
  }

  ghost predicate Revisits(p: seq<Status>, s: Status) {
    exists i, j :: 0 <= i < j < |p| && p[i] == s == p[j]
  }

  function Loop(s: Status): seq<Status>
    requires InLoop(s)
  {
    match s
    case Preparing => [Preparing, InReview, Preparing]
    case InReview => [InReview, Preparing, InReview]
    case HumanRequired => [HumanRequired, Navigating, HumanRequired]
    case _ => [s, HumanRequired, s]
  }

  /** Only the statuses of the rework loop and of the human loop can be visited twice; in particular
      READY and SUBMITTING occur at most once on any path. */
  lemma RevisitedIff(s: Status)
    ensures (exists p :: IsPath(p) && Revisits(p, s)) <==> InLoop(s)
  {
    if InLoop(s) {
      var p := Loop(s);
      assert IsPath(p) by {
        forall i | 0 <= i < 2 ensures StepAt(p, i) {
          assert i == 0 || i == 1;
        }
      }
      assert p[0] == s == p[2];
      assert Revisits(p, s);
    }
    if p :| IsPath(p) && Revisits(p, s) {
      var i, j :| 0 <= i < j < |p| && p[i] == s == p[j];
      RankRises(p, i, j);
    }
  }

  // Which ends remain possible

  predicate IsEnd(s: Status) {
    s in {Submitted, Failed, Expired, Cancelled}
  }

  ghost predicate CanReach(s: Status, t: Status) {
    exists p :: PathBetween(p, s, t)
  }

  lemma ReachSelf(s: Status)
    ensures CanReach(s, s)
  {
    assert PathBetween([s], s, s);
  }

  lemma ReachNext(s: Status, t: Status, u: Status)
    requires ValidTransition(s, t) && CanReach(t, u)
    ensures CanReach(s, u)
  {
    var p :| PathBetween(p, t, u);
    var q := [s] + p;
    forall i | 0 <= i < |q| - 1 ensures StepAt(q, i) {
      if i > 0 {
        assert StepAt(p, i - 1);
      }
    }
    assert PathBetween(q, s, u);
  }

  /** The status to go to next on the way from s to an end. */
  function Towards(s: Status, end: Status): Status
    requires IsEnd(end) && !IsEnd(s) && (s == Submitting ==> end == Submitted || end == Failed)
  {
    match s
    case Discovered => Qualified
    case Qualified => Preparing
    case Preparing => InReview
    case InReview => Ready
    case Ready => Starting
    case Starting => Navigating
    case Navigating => if end == Submitted then Filling else HumanRequired
    case Filling => if end == Submitted || end == Failed then Verifying else HumanRequired
    case Verifying => if end == Submitted || end == Failed then Submitting else HumanRequired
    case Submitting => end
    case HumanRequired => if end == Submitted || end == Failed then Verifying else end
  }

  lemma {:induction false} EndReached(s: Status, end: Status)
    requires IsEnd(end) && !IsEnd(s) && (s == Submitting ==> end == Submitted || end == Failed)
    ensures CanReach(s, end)
    decreases if s != HumanRequired then 10 - Progress(s) else if end == Submitted || end == Failed then 3 else 0
  {
    var t := Towards(s, end);
    if t == end {
      ReachSelf(end);
    } else {
      EndReached(t, end);
    }
    ReachNext(s, t, end);
  }

  lemma {:induction false} PathFromEnd(p: seq<Status>, i: nat)
    requires IsPath(p) && i < |p|
    requires IsEnd(p[0]) || p[0] == Submitting
    ensures IsEnd(p[0]) ==> p[i] == p[0]
    ensures p[0] == Submitting ==> p[i] in {Submitting, Submitted, Failed}
    decreases i
  {
    if i > 0 {
      PathFromEnd(p, i - 1);
      assert StepAt(p, i - 1);
    }
  }

  /** From every status short of SUBMITTING every end is still possible, CANCELLED included; from
      SUBMITTING only SUBMITTED and FAILED; an end is final. */
  lemma EndReachableIff(s: Status, end: Status)
    requires IsEnd(end)
    ensures CanReach(s, end) <==> s == end || (!IsEnd(s) && (s == Submitting ==> end == Submitted || end == Failed))
  {
    if s == end {
      ReachSelf(s);
    } else if !IsEnd(s) && (s == Submitting ==> end == Submitted || end == Failed) {
      EndReached(s, end);
    } else {
      forall p | PathBetween(p, s, end) ensures false {
        PathFromEnd(p, |p| - 1);
      }
    }
  }

  predicate InForm(s: Status) {
    s in {Navigating, Filling, Verifying}
  }

  lemma {:induction false} LeavesFormOnlyForwards(p: seq<Status>, i: nat)
    requires IsPath(p) && InForm(p[0]) && i < |p| && HumanRequired !in p
    ensures InForm(p[i]) || p[i] in {Submitting, Submitted, Failed}
    decreases i
  {
    if i > 0 {
      LeavesFormOnlyForwards(p, i - 1);
      assert StepAt(p, i - 1) && p[i] in p;
    }
  }

  /** From NAVIGATING, FILLING and VERIFYING an application is cancelled only by way of a human. */
  lemma CancelledOnlyByHuman(p: seq<Status>)
    requires IsPath(p) && InForm(p[0]) && p[|p| - 1] == Cancelled
    ensures HumanRequired in p
  {
    if HumanRequired !in p {
      LeavesFormOnlyForwards(p, |p| - 1);
    }
  }

  // How long a path can be

  /** The number of REVIEW to PREPARING steps. */
  function Reworks(p: seq<Status>): nat {
    if |p| <= 1 then 0
    else Reworks(p[..|p| - 1]) + if p[|p| - 2] == InReview && p[|p| - 1] == Preparing then 1 else 0
  }

  /** The number of entries to HUMAN_REQUIRED. */
  function HumanStops(p: seq<Status>): nat {
    if |p| <= 1 then 0 else HumanStops(p[..|p| - 1]) + if p[|p| - 1] == HumanRequired then 1 else 0
  }

  function Progress(s: Status): nat {
    match s
    case Discovered => 0
    case Qualified => 1
    case Preparing => 2
    case InReview => 3
    case Ready => 4
    case Starting => 5
    case HumanRequired => 5
    case Navigating => 6
    case Filling => 7
    case Verifying => 8
    case Submitting => 9
    case Submitted => 10
    case Failed => 10
    case Expired => 10
    case Cancelled => 10
  }

  lemma FrontIsPath(p: seq<Status>)
    requires IsPath(p) && |p| > 1
    ensures IsPath(p[..|p| - 1])
  {
    var front := p[..|p| - 1];
    forall i | 0 <= i < |front| - 1 ensures StepAt(front, i) {
      assert StepAt(p, i);
    }
  }

  lemma {:induction false} StepsBounded(p: seq<Status>)
    requires IsPath(p)
    ensures |p| - 1 <= Progress(p[|p| - 1]) - Progress(p[0]) + 2 * Reworks(p) + 4 * HumanStops(p)
    decreases |p|
  {
    if |p| > 1 {
      FrontIsPath(p);
      StepsBounded(p[..|p| - 1]);
      assert StepAt(p, |p| - 2);
    }
  }

  /** From any status: at most 10 steps, and 2 more per rework and 4 more per call for a human. */
  lemma PathLengthBounded(p: seq<Status>)
    requires IsPath(p)
    ensures |p| - 1 <= 10 + 2 * Reworks(p) + 4 * HumanStops(p)
  {
    StepsBounded(p);
  }

  /** From PREPARING to REVIEW with k reworks. */
  function Rework(k: nat): seq<Status> {
    if k == 0 then [Preparing, InReview] else Rework(k - 1) + [Preparing, InReview]
  }

  /** From NAVIGATING to VERIFYING, calling for a human after each of m rounds. */
  function Rounds(m: nat): seq<Status> {
    if m == 0 then [Navigating, Filling, Verifying]
    else Rounds(m - 1) + [HumanRequired, Navigating, Filling, Verifying]
  }

  function Longest(k: nat, m: nat): seq<Status> {
    [Discovered, Qualified] + Rework(k) + [Ready, Starting] + Rounds(m) + [Submitting, Submitted]
  }

  /** Counts and validity of p + [s], for a step that is not the first. */
  lemma StepOn(p: seq<Status>, s: Status)
    requires IsPath(p) && ValidTransition(p[|p| - 1], s)
    ensures IsPath(p + [s])
    ensures Reworks(p + [s]) == Reworks(p) + if p[|p| - 1] == InReview && s == Preparing then 1 else 0
    ensures HumanStops(p + [s]) == HumanStops(p) + if s == HumanRequired then 1 else 0
  {
    var q := p + [s];
    assert q[..|p|] == p;
    forall i | 0 <= i < |q| - 1 ensures StepAt(q, i) {
      if i < |p| - 1 {
        assert StepAt(p, i);
      }
    }
  }

  lemma StepTwice(p: seq<Status>, s: Status, t: Status)
    requires IsPath(p) && ValidTransition(p[|p| - 1], s) && ValidTransition(s, t)
    requires s != HumanRequired && t != HumanRequired && t != Preparing
    ensures IsPath(p + [s, t])
    ensures Reworks(p + [s, t]) == Reworks(p) + if p[|p| - 1] == InReview && s == Preparing then 1 else 0
    ensures HumanStops(p + [s, t]) == HumanStops(p)
  {
    StepOn(p, s);
    StepOn(p + [s], t);
    assert p + [s] + [t] == p + [s, t];
  }

  lemma {:induction false} ReworkPath(k: nat)
    ensures var p := [Discovered, Qualified] + Rework(k);
      IsPath(p) && p[|p| - 1] == InReview && |p| == 4 + 2 * k && Reworks(p) == k && HumanStops(p) == 0
    decreases k
  {
    if k == 0 {
      assert IsPath([Discovered]) && Reworks([Discovered]) == 0 == HumanStops([Discovered]);
      StepOn([Discovered], Qualified);
      assert [Discovered] + [Qualified] == [Discovered, Qualified];
      StepTwice([Discovered, Qualified], Preparing, InReview);
    } else {
      ReworkPath(k - 1);
      var p := [Discovered, Qualified] + Rework(k - 1);
      StepTwice(p, Preparing, InReview);
      assert [Discovered, Qualified] + Rework(k) == p + [Preparing, InReview];
    }
  }

  lemma BackToVerifying(p: seq<Status>)
    requires IsPath(p) && p[|p| - 1] == HumanRequired
    ensures var q := p + [Navigating, Filling, Verifying];
      IsPath(q) && Reworks(q) == Reworks(p) && HumanStops(q) == HumanStops(p)
  {
    var q := p + [Navigating, Filling];
    StepTwice(p, Navigating, Filling);
    StepOn(q, Verifying);
    assert q + [Verifying] == p + [Navigating, Filling, Verifying];
  }

  lemma RoundOn(p: seq<Status>)
    requires IsPath(p) && p[|p| - 1] == Verifying
    ensures var q := p + [HumanRequired, Navigating, Filling, Verifying];
      IsPath(q) && Reworks(q) == Reworks(p) && HumanStops(q) == HumanStops(p) + 1
  {
    StepOn(p, HumanRequired);
    BackToVerifying(p + [HumanRequired]);
    RoundInOne(p);
  }

  lemma RoundInOne(p: seq<Status>)
    ensures p + [HumanRequired] + [Navigating, Filling, Verifying]
         == p + [HumanRequired, Navigating, Filling, Verifying]
  {
  }

  lemma {:induction false} RoundsPath(p: seq<Status>, m: nat)
    requires IsPath(p) && p[|p| - 1] == Starting
    ensures var q := p + Rounds(m);
      && IsPath(q) && q[|q| - 1] == Verifying && |q| == |p| + 3 + 4 * m
      && Reworks(q) == Reworks(p) && HumanStops(q) == HumanStops(p) + m
    decreases m
  {
    if m == 0 {
      StepTwice(p, Navigating, Filling);
      StepOn(p + [Navigating, Filling], Verifying);
      assert p + [Navigating, Filling] + [Verifying] == p + Rounds(0);
    } else {
      RoundsPath(p, m - 1);
      RoundOn(p + Rounds(m - 1));
      assert p + Rounds(m) == p + Rounds(m - 1) + [HumanRequired, Navigating, Filling, Verifying];
    }
  }

  /** The bound is reached, for every number of reworks and of calls for a human. */
  lemma BoundIsTight(k: nat, m: nat)
    ensures var p := Longest(k, m);
      PathBetween(p, Discovered, Submitted) && Reworks(p) == k && HumanStops(p) == m && |p| - 1 == 10 + 2 * k + 4 * m
  {
    var p := [Discovered, Qualified] + Rework(k);
    ReworkPath(k);
    StepTwice(p, Ready, Starting);
    var q := p + [Ready, Starting];
    RoundsPath(q, m);
    StepTwice(q + Rounds(m), Submitting, Submitted);
    assert q + Rounds(m) + [Submitting, Submitted] == Longest(k, m);
  }
}
