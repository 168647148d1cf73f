/** The low-performing resume version recommender (internal/outcome/recommendation.go). */
module Recommendation {
  import opened Outcome
  import opened Analytics
  import opened Reports

  /** The version flagged and the rate that speaks against it; the fixed texts are left out. */
  datatype Recommendation = Recommendation(variant: string, version: int, supportingRate: Rate)

  /** Overall response rate. */
  function OverallRate(rs: seq<Record>): Rate {
    ComputeRate(Tally(rs, Reached(Responded)), Tally(rs, Reached(Submitted)))
  }

  predicate Flags(row: Row, overall: Rate, minSubmissions: int) {
    row.submitted >= minSubmissions && row.responseRate.value < overall.value
  }

  /** Exactly the flagged rows of a report, in report order. */
  ghost predicate IsAdvice(out: seq<Recommendation>, rows: seq<Row>, overall: Rate, minSubmissions: int) {
    if rows == [] then out == []
    else
      var row := rows[|rows| - 1];
      if Flags(row, overall, minSubmissions)
      then
        && out != [] && IsAdvice(out[..|out| - 1], rows[..|rows| - 1], overall, minSubmissions)
        && out[|out| - 1] == Recommendation(row.key.name, row.key.version, row.responseRate)
      else IsAdvice(out, rows[..|rows| - 1], overall, minSubmissions)
  }

  method ResponseRate(rs: seq<Record>) returns (rate: Rate)
    ensures rate == OverallRate(rs)
  {
    var f := Funnel(rs);
    rate := ComputeRate(f.responded, f.submitted);
  }

  method RecommendLowPerformingResumeVersions(rs: seq<Record>, minSubmissions: int)
    returns (out: seq<Recommendation>)
    ensures exists rows ::
      && IsReport(rows, rs, VersionKey)
      && IsAdvice(out, rows, OverallRate(rs), minSubmissions)
      && (rs != [] && (minSubmissions >= 1 || RespondedWereSubmitted(rs)) ==> |out| < |rows|)
  {
    var overall := ResponseRate(rs);
    var perVersion := ByResumeVersion(rs);
    out := [];
    for i := 0 to |perVersion|
      invariant IsAdvice(out, perVersion[..i], overall, minSubmissions)
    {
      var v := perVersion[i];
      assert perVersion[..i + 1][..i] == perVersion[..i];
      if v.submitted < minSubmissions {
        continue;
      }
      if v.responseRate.value < overall.value {
        var advice := Recommendation(v.key.name, v.key.version, v.responseRate);
        assert (out + [advice])[..|out|] == out;
        out := out + [advice];
      }
    }
    assert perVersion[..|perVersion|] == perVersion;
    if rs != [] && (minSubmissions >= 1 || RespondedWereSubmitted(rs)) {
      if RespondedWereSubmitted(rs) {
        RespondedImpliesSent(perVersion, rs);
      }
      NeverFlagsEveryVersion(out, perVersion, rs, minSubmissions);
    }
  }

  // Not every version is below average

  predicate RespondedWereSubmitted(rs: seq<Record>) {
    forall r | r in rs :: r.HasStage(Responded) ==> r.HasStage(Submitted)
  }

  lemma ScaledBelow(n: int, d: nat, bound: real)
    requires 0 <= n && (d == 0 ==> n == 0) && ComputeRate(n, d).value < bound
    ensures n as real <= bound * d as real
    ensures d > 0 ==> n as real < bound * d as real
  {
    if d > 0 {
      var q := n as real / d as real;
      assert q * d as real == n as real;
      assert (bound - q) * d as real > 0.0;
    }
  }

  /** n responses to d submissions stay below the bound; strictly, once there are submissions. */
  predicate Below(n: int, d: nat, bound: real) {
    n as real <= bound * d as real && (d > 0 ==> (n as real) < bound * d as real)
  }

  lemma BelowAdds(n: int, d: nat, n2: int, d2: nat, bound: real)
    requires Below(n, d, bound) && Below(n2, d2, bound)
    ensures Below(n + n2, d + d2, bound)
  {
    assert bound * (d + d2) as real == bound * d as real + bound * d2 as real by {
      assert (d + d2) as real == d as real + d2 as real;
    }
  }

  predicate RowBelow(row: Row, bound: real) {
    && 0 <= row.responseRate.numerator && (row.submitted == 0 ==> row.responseRate.numerator == 0)
    && row.responseRate == ComputeRate(row.responseRate.numerator, row.submitted)
    && row.responseRate.value < bound
  }

  lemma RowIsBelow(row: Row, bound: real)
    requires RowBelow(row, bound)
    ensures Below(row.responseRate.numerator, row.submitted, bound)
  {
    ScaledBelow(row.responseRate.numerator, row.submitted, bound);
  }

  /** If every row were below a bound, so would be the quotient of the sums. */
  lemma {:induction false} SumsBelow(rows: seq<Row>, bound: real)
    requires forall i | 0 <= i < |rows| :: RowBelow(rows[i], bound)
    ensures SumOver(rows, Submitted) >= 0 && Below(SumOver(rows, Responded), SumOver(rows, Submitted), bound)
    decreases |rows|
  {
    if rows != [] {
      var n := |rows| - 1;
      SumsBelow(rows[..n], bound);
      RowIsBelow(rows[n], bound);
      BelowAdds(SumOver(rows[..n], Responded), SumOver(rows[..n], Submitted), rows[n].responseRate.numerator,
                rows[n].submitted, bound);
    }
  }

  /** No version was answered without being submitted at all. */
  predicate AnsweredWereSent(rows: seq<Row>) {
    forall i | 0 <= i < |rows| :: rows[i].submitted == 0 ==> rows[i].responseRate.numerator == 0
  }

  /** It is enough that every single record with a response was submitted. */
  lemma RespondedImpliesSent(rows: seq<Row>, rs: seq<Record>)
    requires IsReport(rows, rs, VersionKey) && RespondedWereSubmitted(rs)
    ensures AnsweredWereSent(rows)
  {
    forall i | 0 <= i < |rows| ensures rows[i].responseRate.numerator <= rows[i].submitted {
      var group := Group(rs, VersionKey, rows[i].key);
      GroupMembers(rs, VersionKey, rows[i].key);
      TallyMonotone(group, Reached(Responded), Reached(Submitted));
    }
    assert forall i | 0 <= i < |rows| :: rows[i].responseRate.numerator >= 0;
  }

  /** The mediant: some version has a response rate at least the overall one. Zero denominators are
      included. */
  lemma SomeVersionAtLeastAverage(rows: seq<Row>, rs: seq<Record>)
    requires IsReport(rows, rs, VersionKey) && rs != [] && AnsweredWereSent(rows)
    ensures exists i :: 0 <= i < |rows| && rows[i].responseRate.value >= OverallRate(rs).value
  {
    var overall := OverallRate(rs);
    ReportConserves(rows, rs, VersionKey, Responded);
    ReportConserves(rows, rs, VersionKey, Submitted);
    assert VersionKey(rs[0]) in Keys(rows);
    if forall i | 0 <= i < |rows| :: rows[i].responseRate.value < overall.value {
      SumsBelow(rows, overall.value);
      NotBelowItself(Tally(rs, Reached(Responded)), Tally(rs, Reached(Submitted)));
      RateNonNegative(rows[0].responseRate.numerator, rows[0].submitted);
    }
  }

  lemma NotBelowItself(n: int, d: nat)
    ensures d > 0 ==> !Below(n, d, ComputeRate(n, d).value)
    ensures d == 0 ==> ComputeRate(n, d).value == 0.0
  {
  }

  lemma RateNonNegative(n: nat, d: nat)
    ensures ComputeRate(n, d).value >= 0.0
  {
  }

  lemma {:induction false} AdviceCounts(out: seq<Recommendation>, rows: seq<Row>, overall: Rate, minSubmissions: int)
    requires IsAdvice(out, rows, overall, minSubmissions)
    ensures |out| <= |rows|
    ensures |out| == |rows| <==> forall i | 0 <= i < |rows| :: Flags(rows[i], overall, minSubmissions)
    decreases |rows|
  {
    if rows != [] {
      var n := |rows| - 1;
      if Flags(rows[n], overall, minSubmissions) {
        AdviceCounts(out[..|out| - 1], rows[..n], overall, minSubmissions);
      } else {
        AdviceCounts(out, rows[..n], overall, minSubmissions);
      }
      assert forall i | 0 <= i < n :: rows[..n][i] == rows[i];
    }
  }

  /** The recommender leaves some version unflagged whenever one submission at least is asked for, and
      for any minimum if no version was answered without being submitted. */
  lemma {:induction false} NeverFlagsEveryVersion(
      out: seq<Recommendation>, rows: seq<Row>, rs: seq<Record>, minSubmissions: int)
    requires IsReport(rows, rs, VersionKey) && rs != []
    requires minSubmissions >= 1 || AnsweredWereSent(rows)
    requires IsAdvice(out, rows, OverallRate(rs), minSubmissions)
    ensures |out| < |rows|
  {
    AdviceCounts(out, rows, OverallRate(rs), minSubmissions);
    if AnsweredWereSent(rows) {
      SomeVersionAtLeastAverage(rows, rs);
    }
  }

  // When every version is flagged

  lemma RateLess(n: nat, s: nat, total: nat, sent: nat)
    requires s > 0 && sent > 0
    ensures ComputeRate(n, s).value < ComputeRate(total, sent).value <==> n * sent < total * s
  {
    var p, q := n as real / s as real, total as real / sent as real;
    var d := s as real * sent as real;
    assert d > 0.0;
    assert p * d == n as real * sent as real by {
      assert p * s as real == n as real;
    }
    assert q * d == total as real * s as real by {
      assert q * sent as real == total as real;
    }
    assert p < q <==> (q - p) * d > 0.0;
    assert (n * sent) as real == n as real * sent as real && (total * s) as real == total as real * s as real;
  }

  /** The row answers less of its submissions than all rows together do, in whole numbers. */
  predicate BelowTotals(row: Row, answered: nat, sent: nat) {
    row.submitted > 0 ==> row.responseRate.numerator * sent < answered * row.submitted
  }

  lemma FlaggedIff(row: Row, group: seq<Record>, rs: seq<Record>, minSubmissions: int)
    requires IsRowOf(row, group)
    ensures var answered, sent := Tally(rs, Reached(Responded)), Tally(rs, Reached(Submitted));
      Flags(row, OverallRate(rs), minSubmissions)
      <==> row.submitted >= minSubmissions && answered > 0 && sent > 0 && BelowTotals(row, answered, sent)
  {
    var answered, sent := Tally(rs, Reached(Responded)), Tally(rs, Reached(Submitted));
    var n := Tally(group, Reached(Responded));
    RateNonNegative(n, row.submitted);
    if sent > 0 {
      RateLess(0, 1, answered, sent);
      if row.submitted > 0 {
        RateLess(n, row.submitted, answered, sent);
      }
    }
  }

  /** Exactly when every version is flagged: nothing is asked of the number of submissions, something
      was submitted and something answered, and every version with submissions is below the totals. */
  lemma EveryVersionFlaggedIff(out: seq<Recommendation>, rows: seq<Row>, rs: seq<Record>, minSubmissions: int)
    requires IsReport(rows, rs, VersionKey) && rs != []
    requires IsAdvice(out, rows, OverallRate(rs), minSubmissions)
    ensures var answered, sent := Tally(rs, Reached(Responded)), Tally(rs, Reached(Submitted));
      |out| == |rows| <==>
        && minSubmissions <= 0 && answered > 0 && sent > 0
        && forall i | 0 <= i < |rows| :: BelowTotals(rows[i], answered, sent)
  {
    AdviceCounts(out, rows, OverallRate(rs), minSubmissions);
    assert VersionKey(rs[0]) in Keys(rows);
    forall i | 0 <= i < |rows|
      ensures Flags(rows[i], OverallRate(rs), minSubmissions)
        <==> && rows[i].submitted >= minSubmissions
             && Tally(rs, Reached(Responded)) > 0 && Tally(rs, Reached(Submitted)) > 0
             && BelowTotals(rows[i], Tally(rs, Reached(Responded)), Tally(rs, Reached(Submitted)))
    {
      FlaggedIff(rows[i], Group(rs, VersionKey, rows[i].key), rs, minSubmissions);
    }
    if minSubmissions >= 1 {
      NeverFlagsEveryVersion(out, rows, rs, minSubmissions);
    }
  }

  lemma TallyPair(a: Record, b: Record, m: Measure)
    ensures Tally([a, b], m) == (if Counts(m, a) then 1 else 0) + if Counts(m, b) then 1 else 0
    ensures Tally([a], m) == if Counts(m, a) then 1 else 0
  {
    assert [a, b] == [] + [a] + [b];
    TallyAppend([a], b, m);
    TallyAppend([], a, m);
    assert [] + [a] == [a];
  }

  lemma GroupPair(a: Record, b: Record, key: Key)
    requires VersionKey(a) != VersionKey(b)
    ensures Group([a, b], VersionKey, key)
         == if key == VersionKey(a) then [a] else if key == VersionKey(b) then [b] else []
  {
    assert [a, b] == [a] + [b];
    GroupAppend([a], b, VersionKey, key);
    assert [] + [a] == [a];
    GroupAppend([], a, VersionKey, key);
  }

  /** One version submitted and unanswered, another answered and not recorded as submitted. */
  predicate UnsentAnswer(a: Record, b: Record) {
    && VersionKey(a) != VersionKey(b)
    && a.HasStage(Submitted) && !a.HasStage(Responded)
    && b.HasStage(Responded) && !b.HasStage(Submitted)
  }

  lemma UnsentTallies(a: Record, b: Record)
    requires UnsentAnswer(a, b)
    ensures Tally([a], Reached(Submitted)) == 1 && Tally([a], Reached(Responded)) == 0
    ensures Tally([b], Reached(Submitted)) == 0 && Tally([b], Reached(Responded)) == 1
    ensures Tally([a, b], Reached(Submitted)) == 1 && Tally([a, b], Reached(Responded)) == 1
  {
    TallyPair(a, b, Reached(Submitted));
    TallyPair(a, b, Reached(Responded));
    TallyPair(b, a, Reached(Submitted));
    TallyPair(b, a, Reached(Responded));
  }

  lemma UnsentRowFlagged(a: Record, b: Record, row: Row, minSubmissions: int)
    requires UnsentAnswer(a, b) && (row.key == VersionKey(a) || row.key == VersionKey(b))
    requires IsRowOf(row, Group([a, b], VersionKey, row.key)) && minSubmissions <= 0
    ensures Flags(row, OverallRate([a, b]), minSubmissions)
  {
    GroupPair(a, b, row.key);
    UnsentTallies(a, b);
    assert OverallRate([a, b]) == ComputeRate(1, 1);
    assert row.responseRate == ComputeRate(0, 1) || row.responseRate == ComputeRate(1, 0);
  }

  /** Two such records have both their versions flagged, for every minimum of zero or less. */
  lemma UnsentAnswerFlagsEveryVersion(
      a: Record, b: Record, out: seq<Recommendation>, rows: seq<Row>, minSubmissions: int)
    requires UnsentAnswer(a, b) && IsReport(rows, [a, b], VersionKey) && minSubmissions <= 0
    requires IsAdvice(out, rows, OverallRate([a, b]), minSubmissions)
    ensures |out| == |rows| == 2
  {
    forall i | 0 <= i < |rows| ensures Flags(rows[i], OverallRate([a, b]), minSubmissions) {
      var key := Keys(rows)[i];
      assert key in Keys(rows);
      UnsentRowFlagged(a, b, rows[i], minSubmissions);
    }
    AdviceCounts(out, rows, OverallRate([a, b]), minSubmissions);
    TwoKeys(Keys(rows), VersionKey(a), VersionKey(b));
  }

  lemma TwoKeys(keys: seq<Key>, x: Key, y: Key)
    requires Increasing(keys) && x != y && forall k :: k in keys <==> k == x || k == y
    ensures |keys| == 2
  {
    KeyOrder(x, y);
    IncreasingUnique(keys, if KeyLess(x, y) then [x, y] else [y, x]);
  }
}
