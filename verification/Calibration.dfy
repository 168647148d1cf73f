/** Outcomes by job-score decile (internal/outcome/analytics.go:133-181). */
module Calibration {
  import opened Outcome
  import opened Analytics

  datatype ScoreBucket = ScoreBucket(
    minScore: int, maxScore: int, count: nat, responseRate: Rate, interviewRate: Rate, offerCount: nat)

  /** Go's integer division truncates toward zero. */
  function QuotientTowardZero(a: int, b: int): int
    requires b > 0
  {
    if a >= 0 then a / b else -((-a) / b)
  }

  function BucketIndex(score: int): int {
    var index := QuotientTowardZero(score, 10);
    if index > 9 then 9 else if index < 0 then 0 else index
  }

  function BucketOf(r: Record): int {
    BucketIndex(r.jobScore)
  }

  const BUCKETS: seq<int> := [0, 1, 2, 3, 4, 5, 6, 7, 8, 9]

  function MinScore(i: int): int { i * 10 }
  function MaxScore(i: int): int { if i == 9 then 100 else i * 10 + 9 }

  ghost predicate IsBucketOf(b: ScoreBucket, i: int, group: seq<Record>) {
    var submitted := Tally(group, Reached(Submitted));
    && b.minScore == MinScore(i) && b.maxScore == MaxScore(i)
    && b.count == |group|
    && b.responseRate == ComputeRate(Tally(group, Reached(Responded)), submitted)
    && b.interviewRate == ComputeRate(Tally(group, Reached(Interview)), submitted)
    && b.offerCount == Tally(group, Reached(Offer))
  }

  method DefaultScoreBuckets() returns (buckets: array<ScoreBucket>)
    ensures fresh(buckets) && buckets.Length == 10
    ensures forall i | 0 <= i < 10 :: buckets[i].minScore == MinScore(i) && buckets[i].maxScore == MaxScore(i)
  {
    var none := Rate(0, 0, 0.0);
    buckets := new ScoreBucket[10](_ => ScoreBucket(0, 0, 0, none, none, 0));
    for i := 0 to 10
      invariant forall k | 0 <= k < i :: buckets[k].minScore == k * 10 && buckets[k].maxScore == k * 10 + 9
    {
      buckets[i] := ScoreBucket(i * 10, i * 10 + 9, 0, none, none, 0);
    }
    buckets[9] := buckets[9].(maxScore := 100);
  }

  method GroupByBucket(rs: seq<Record>) returns (grouped: array<seq<Record>>)
    ensures fresh(grouped) && grouped.Length == 10
    ensures forall i | 0 <= i < 10 :: grouped[i] == Group(rs, BucketOf, i)
  {
    grouped := new seq<Record>[10](_ => []);
    for n := 0 to |rs|
      invariant forall i | 0 <= i < 10 :: grouped[i] == Group(rs[..n], BucketOf, i)
    {
      var index := QuotientTowardZero(rs[n].jobScore, 10);
      if index > 9 {
        index := 9;
      }
      if index < 0 {
        index := 0;
      }
      assert rs[..n + 1] == rs[..n] + [rs[n]];
      forall i | 0 <= i < 10
        ensures Group(rs[..n + 1], BucketOf, i) == Group(rs[..n], BucketOf, i) + if i == index then [rs[n]] else []
      {
        GroupAppend(rs[..n], rs[n], BucketOf, i);
      }
      grouped[index] := grouped[index] + [rs[n]];
    }
    assert rs[..|rs|] == rs;
  }

  method ScoreCalibration(rs: seq<Record>) returns (buckets: array<ScoreBucket>)
    ensures fresh(buckets) && buckets.Length == 10
    ensures forall i | 0 <= i < 10 :: IsBucketOf(buckets[i], i, Group(rs, BucketOf, i))
  {
    buckets := DefaultScoreBuckets();
    var grouped := GroupByBucket(rs);
    for i := 0 to 10
      invariant forall k | 0 <= k < 10 :: grouped[k] == Group(rs, BucketOf, k)
      invariant forall k | 0 <= k < i :: IsBucketOf(buckets[k], k, Group(rs, BucketOf, k))
      invariant forall k | i <= k < 10 :: buckets[k].minScore == MinScore(k) && buckets[k].maxScore == MaxScore(k)
    {
      var group := grouped[i];
      var f := Funnel(group);
      buckets[i] := buckets[i].(
        count := |group|,
        responseRate := ComputeRate(f.responded, f.submitted),
        interviewRate := ComputeRate(f.interview, f.submitted),
        offerCount := f.offer);
    }
  }

  /** Every score has a bucket, and lies in that bucket's inclusive range exactly when it is 0..100. */
  lemma ScoreInRangeIff(score: int)
    ensures 0 <= BucketIndex(score) <= 9
    ensures MinScore(BucketIndex(score)) <= score <= MaxScore(BucketIndex(score)) <==> 0 <= score <= 100
  {
  }

  /** A score in 0..100 lies in the range of one bucket only. */
  lemma BucketUnique(score: int, i: int)
    requires 0 <= i <= 9 && MinScore(i) <= score <= MaxScore(i)
    ensures i == BucketIndex(score)
  {
  }

  lemma BucketsCover(rs: seq<Record>)
    ensures Distinct(BUCKETS) && forall r | r in rs :: BucketOf(r) in BUCKETS
  {
    forall r | r in rs ensures BucketOf(r) in BUCKETS {
      var i := BucketOf(r);
      assert BUCKETS[i] == i;
    }
  }

  /** What a bucket reports of a measure; only the measures of `Reported` are reported. */
  function CountOf(b: ScoreBucket, m: Measure): int {
    match m
    case Everything => b.count
    case Reached(Submitted) => b.responseRate.denominator
    case Reached(Responded) => b.responseRate.numerator
    case Reached(Interview) => b.interviewRate.numerator
    case _ => b.offerCount
  }

  predicate Reported(m: Measure) {
    m == Everything || m.stage == Submitted || m.stage == Responded || m.stage == Interview || m.stage == Offer
  }

  function SumOver(buckets: seq<ScoreBucket>, m: Measure): int {
    if buckets == [] then 0 else SumOver(buckets[..|buckets| - 1], m) + CountOf(buckets[|buckets| - 1], m)
  }

  lemma {:induction false} BucketSums(buckets: seq<ScoreBucket>, rs: seq<Record>, n: nat, m: Measure)
    requires n == |buckets| <= 10 && Reported(m)
    requires forall i | 0 <= i < n :: IsBucketOf(buckets[i], i, Group(rs, BucketOf, i))
    ensures SumOver(buckets, m) == SumOfGroups(rs, BucketOf, BUCKETS[..n], m)
    decreases n
  {
    if n > 0 {
      BucketSums(buckets[..n - 1], rs, n - 1, m);
      assert BUCKETS[..n][..n - 1] == BUCKETS[..n - 1] && BUCKETS[..n][n - 1] == n - 1;
      TallyOfAll(Group(rs, BucketOf, n - 1));
      BucketReports(buckets[n - 1], n - 1, Group(rs, BucketOf, n - 1), m);
    }
  }

  lemma BucketReports(b: ScoreBucket, i: int, group: seq<Record>, m: Measure)
    requires IsBucketOf(b, i, group) && Reported(m)
    ensures CountOf(b, m) == Tally(group, m)
  {
    TallyOfAll(group);
  }

  /** Calibration partitions the records: the counts, offers, and rate numerators and denominators
      of the buckets add up to those of the global funnel. */
  lemma {:induction false} CalibrationConserves(buckets: seq<ScoreBucket>, rs: seq<Record>, m: Measure)
    requires |buckets| == 10 && forall i | 0 <= i < 10 :: IsBucketOf(buckets[i], i, Group(rs, BucketOf, i))
    requires Reported(m)
    ensures SumOver(buckets, m) == Tally(rs, m)
    ensures m == Everything ==> SumOver(buckets, m) == |rs|
  {
    BucketsCover(rs);
    assert BUCKETS[..10] == BUCKETS;
    BucketSums(buckets, rs, 10, m);
    GroupsConserve(rs, BucketOf, BUCKETS, m);
    TallyOfAll(rs);
  }
}
