/** Funnel counts and grouped performance reports (internal/outcome/analytics.go). */
module Analytics {
  import opened Outcome

  // Counting

  /** What is counted: every record, or the records that reached a stage. */
  datatype Measure = Everything | Reached(stage: Stage)

  predicate Counts(m: Measure, r: Record) {
    m.Reached? ==> r.HasStage(m.stage)
  }

  function Tally(rs: seq<Record>, m: Measure): nat {
    if rs == [] then 0
    else Tally(rs[..|rs| - 1], m) + if Counts(m, rs[|rs| - 1]) then 1 else 0
  }

  /** The records with a given key, in their order. */
  function Group<K(==)>(rs: seq<Record>, keyOf: Record -> K, key: K): seq<Record> {
    if rs == [] then []
    else Group(rs[..|rs| - 1], keyOf, key) + if keyOf(rs[|rs| - 1]) == key then [rs[|rs| - 1]] else []
  }

  lemma TallyAppend(rs: seq<Record>, r: Record, m: Measure)
    ensures Tally(rs + [r], m) == Tally(rs, m) + if Counts(m, r) then 1 else 0
  {
    assert (rs + [r])[..|rs|] == rs;
  }

  lemma GroupAppend<K>(rs: seq<Record>, r: Record, keyOf: Record -> K, key: K)
    ensures Group(rs + [r], keyOf, key) == Group(rs, keyOf, key) + if keyOf(r) == key then [r] else []
  {
    assert (rs + [r])[..|rs|] == rs;
  }

  lemma {:induction false} GroupMembers<K>(rs: seq<Record>, keyOf: Record -> K, key: K)
    ensures forall r :: r in Group(rs, keyOf, key) <==> r in rs && keyOf(r) == key
  {
    if rs != [] {
      var n := |rs| - 1;
      GroupMembers(rs[..n], keyOf, key);
      assert rs == rs[..n] + [rs[n]];
    }
  }

  lemma {:induction false} TallyOfAll(rs: seq<Record>)
    ensures Tally(rs, Everything) == |rs|
  {
    if rs != [] {
      TallyOfAll(rs[..|rs| - 1]);
    }
  }

  /** Of two stages, the one every record of the other reached is counted at least as often. */
  lemma {:induction false} TallyMonotone(rs: seq<Record>, less: Measure, more: Measure)
    requires forall r | r in rs :: Counts(less, r) ==> Counts(more, r)
    ensures Tally(rs, less) <= Tally(rs, more)
  {
    if rs != [] {
      TallyMonotone(rs[..|rs| - 1], less, more);
    }
  }

  // Counting does not depend on the order of the records

  lemma {:induction false} TallyConcat(a: seq<Record>, b: seq<Record>, m: Measure)
    ensures Tally(a + b, m) == Tally(a, m) + Tally(b, m)
    decreases |b|
  {
    if b == [] {
      assert a + b == a;
    } else {
      var n := |b| - 1;
      TallyConcat(a, b[..n], m);
      assert a + b == (a + b[..n]) + [b[n]];
      TallyAppend(a + b[..n], b[n], m);
    }
  }

  function Without(rs: seq<Record>, i: nat): seq<Record>
    requires i < |rs|
  {
    rs[..i] + rs[i + 1..]
  }

  lemma WithoutOne(rs: seq<Record>, i: nat, m: Measure)
    requires i < |rs|
    ensures multiset(rs) == multiset(Without(rs, i)) + multiset{rs[i]}
    ensures Tally(rs, m) == Tally(Without(rs, i), m) + if Counts(m, rs[i]) then 1 else 0
  {
    assert rs == rs[..i] + [rs[i]] + rs[i + 1..];
    TallyConcat(rs[..i] + [rs[i]], rs[i + 1..], m);
    TallyConcat(rs[..i], rs[i + 1..], m);
    TallyAppend(rs[..i], rs[i], m);
  }

  lemma {:induction false} TallyPermuted(a: seq<Record>, b: seq<Record>, m: Measure)
    requires multiset(a) == multiset(b)
    ensures Tally(a, m) == Tally(b, m)
    decreases |a|
  {
    if a == [] {
      assert |b| == |multiset(b)| == 0;
    } else {
      var n := |a| - 1;
      assert a[n] in multiset(b);
      var i :| 0 <= i < |b| && b[i] == a[n];
      WithoutOne(a, n, m);
      WithoutOne(b, i, m);
      assert multiset(Without(a, n)) == multiset(a) - multiset{a[n]};
      TallyPermuted(Without(a, n), Without(b, i), m);
    }
  }

  lemma {:induction false} GroupMultiset<K>(rs: seq<Record>, keyOf: Record -> K, key: K)
    ensures forall r :: multiset(Group(rs, keyOf, key))[r] == if keyOf(r) == key then multiset(rs)[r] else 0
  {
    if rs != [] {
      var n := |rs| - 1;
      GroupMultiset(rs[..n], keyOf, key);
      assert rs == rs[..n] + [rs[n]];
    }
  }

  lemma GroupPermuted<K>(a: seq<Record>, b: seq<Record>, keyOf: Record -> K, key: K)
    requires multiset(a) == multiset(b)
    ensures multiset(Group(a, keyOf, key)) == multiset(Group(b, keyOf, key))
  {
    GroupMultiset(a, keyOf, key);
    GroupMultiset(b, keyOf, key);
  }

  // Conservation: the counts of the groups add up to the count of the whole

  /** Counted records whose key is one of the first n keys. */
  function TallyAmong<K(==)>(rs: seq<Record>, keyOf: Record -> K, keys: seq<K>, m: Measure): nat {
    if rs == [] then 0
    else
      TallyAmong(rs[..|rs| - 1], keyOf, keys, m)
      + if CountsAmong(rs[|rs| - 1], keyOf, keys, m) then 1 else 0
  }

  function SumOfGroups<K(==)>(rs: seq<Record>, keyOf: Record -> K, keys: seq<K>, m: Measure): nat {
    if keys == [] then 0
    else
      SumOfGroups(rs, keyOf, keys[..|keys| - 1], m) + Tally(Group(rs, keyOf, keys[|keys| - 1]), m)
  }

  /** A counted record with one of the keys. */
  predicate CountsAmong<K(==)>(r: Record, keyOf: Record -> K, keys: seq<K>, m: Measure) {
    keyOf(r) in keys && Counts(m, r)
  }

  lemma GroupTally<K>(rs: seq<Record>, r: Record, keyOf: Record -> K, key: K, m: Measure)
    ensures Tally(Group(rs + [r], keyOf, key), m)
         == Tally(Group(rs, keyOf, key), m) + if keyOf(r) == key && Counts(m, r) then 1 else 0
  {
    GroupAppend(rs, r, keyOf, key);
    TallyAppend(Group(rs, keyOf, key), r, m);
    assert Group(rs, keyOf, key) + [] == Group(rs, keyOf, key);
  }

  lemma KeyAppend<K>(r: Record, keyOf: Record -> K, keys: seq<K>, key: K, m: Measure)
    requires key !in keys
    ensures CountsAmong(r, keyOf, keys + [key], m)
        <==> CountsAmong(r, keyOf, keys, m) || (keyOf(r) == key && Counts(m, r))
    ensures !(CountsAmong(r, keyOf, keys, m) && keyOf(r) == key)
  {
  }

  lemma {:induction false} TallyAmongExtend<K>(rs: seq<Record>, keyOf: Record -> K, keys: seq<K>, key: K, m: Measure)
    requires key !in keys
    ensures TallyAmong(rs, keyOf, keys + [key], m) == TallyAmong(rs, keyOf, keys, m) + Tally(Group(rs, keyOf, key), m)
    decreases |rs|
  {
    if rs != [] {
      var front, last := rs[..|rs| - 1], rs[|rs| - 1];
      TallyAmongExtend(front, keyOf, keys, key, m);
      GroupTally(front, last, keyOf, key, m);
      KeyAppend(last, keyOf, keys, key, m);
      assert rs == front + [last];
    }
  }

  predicate Distinct<K(==)>(keys: seq<K>) {
    forall i, j | 0 <= i < j < |keys| :: keys[i] != keys[j]
  }

  lemma {:induction false} SumIsTallyAmong<K>(rs: seq<Record>, keyOf: Record -> K, keys: seq<K>, m: Measure)
    requires Distinct(keys)
    ensures SumOfGroups(rs, keyOf, keys, m) == TallyAmong(rs, keyOf, keys, m)
    decreases |keys|
  {
    if keys == [] {
      TallyAmongNone(rs, keyOf, keys, m);
    } else {
      var n := |keys| - 1;
      SumIsTallyAmong(rs, keyOf, keys[..n], m);
      assert keys == keys[..n] + [keys[n]];
      TallyAmongExtend(rs, keyOf, keys[..n], keys[n], m);
    }
  }

  lemma {:induction false} TallyAmongNone<K>(rs: seq<Record>, keyOf: Record -> K, keys: seq<K>, m: Measure)
    requires keys == []
    ensures TallyAmong(rs, keyOf, keys, m) == 0
  {
    if rs != [] {
      TallyAmongNone(rs[..|rs| - 1], keyOf, keys, m);
    }
  }

  lemma {:induction false} TallyAmongAll<K>(rs: seq<Record>, keyOf: Record -> K, keys: seq<K>, m: Measure)
    requires forall r | r in rs :: keyOf(r) in keys
    ensures TallyAmong(rs, keyOf, keys, m) == Tally(rs, m)
  {
    if rs != [] {
      TallyAmongAll(rs[..|rs| - 1], keyOf, keys, m);
    }
  }

  /** For distinct keys that cover the records, the group counts sum to the global count. */
  lemma GroupsConserve<K>(rs: seq<Record>, keyOf: Record -> K, keys: seq<K>, m: Measure)
    requires Distinct(keys) && forall r | r in rs :: keyOf(r) in keys
    ensures SumOfGroups(rs, keyOf, keys, m) == Tally(rs, m)
  {
    SumIsTallyAmong(rs, keyOf, keys, m);
    TallyAmongAll(rs, keyOf, keys, m);
  }

  // Funnel and rates

  datatype FunnelCounts = FunnelCounts(
    discovered: nat, qualified: nat, prepared: nat, submitted: nat, responded: nat,
    interview: nat, offer: nat, rejected: nat, withdrawn: nat)

  /** Exact ratio; 0 when the denominator is 0. */
  datatype Rate = Rate(numerator: int, denominator: int, value: real)

  function ComputeRate(numerator: int, denominator: int): Rate {
    if denominator == 0 then Rate(numerator, 0, 0.0)
    else Rate(numerator, denominator, numerator as real / denominator as real)
  }

  ghost predicate IsFunnel(f: FunnelCounts, rs: seq<Record>) {
    && f.discovered == Tally(rs, Reached(Discovered))
    && f.qualified == Tally(rs, Reached(Qualified))
    && f.prepared == Tally(rs, Reached(Prepared))
    && f.submitted == Tally(rs, Reached(Submitted))
    && f.responded == Tally(rs, Reached(Responded))
    && f.interview == Tally(rs, Reached(Interview))
    && f.offer == Tally(rs, Reached(Offer))
    && f.rejected == Tally(rs, Reached(Rejected))
    && f.withdrawn == Tally(rs, Reached(Withdrawn))
  }

  /** One conditional increment of the loop below. */
  method Bump(count: nat, ghost done: seq<Record>, r: Record, stage: Stage) returns (more: nat)
    requires count == Tally(done, Reached(stage))
    ensures more == Tally(done + [r], Reached(stage))
  {
    TallyAppend(done, r, Reached(stage));
    more := count;
    if r.HasStage(stage) {
      more := more + 1;
    }
  }

  method Funnel(rs: seq<Record>) returns (f: FunnelCounts)
    ensures IsFunnel(f, rs)
  {
    var discovered, qualified, prepared, submitted, responded := 0, 0, 0, 0, 0;
    var interview, offer, rejected, withdrawn := 0, 0, 0, 0;
    for i := 0 to |rs|
      invariant discovered >= 0 && qualified >= 0 && prepared >= 0 && submitted >= 0 && responded >= 0
      invariant interview >= 0 && offer >= 0 && rejected >= 0 && withdrawn >= 0
      invariant IsFunnel(
        FunnelCounts(discovered, qualified, prepared, submitted, responded, interview, offer, rejected, withdrawn),
        rs[..i])
    {
      ghost var done := rs[..i];
      assert rs[..i + 1] == done + [rs[i]];
      discovered := Bump(discovered, done, rs[i], Discovered);
      qualified := Bump(qualified, done, rs[i], Qualified);
      prepared := Bump(prepared, done, rs[i], Prepared);
      submitted := Bump(submitted, done, rs[i], Submitted);
      responded := Bump(responded, done, rs[i], Responded);
      interview := Bump(interview, done, rs[i], Interview);
      offer := Bump(offer, done, rs[i], Offer);
      rejected := Bump(rejected, done, rs[i], Rejected);
      withdrawn := Bump(withdrawn, done, rs[i], Withdrawn);
    }
    assert rs[..|rs|] == rs;
    f := FunnelCounts(discovered, qualified, prepared, submitted, responded, interview, offer, rejected, withdrawn);
  }

  /** Appending a stage to one record never lowers a funnel count. */
  lemma FunnelNeverDrops(rs: seq<Record>, i: nat, stage: Stage, at: int, m: Measure)
    requires i < |rs|
    ensures Tally(rs, m) <= Tally(rs[i := AppendStage(rs[i], stage, at)], m) <= Tally(rs, m) + 1
    ensures m == Reached(stage) && !rs[i].HasStage(stage) ==>
      Tally(rs[i := AppendStage(rs[i], stage, at)], m) == Tally(rs, m) + 1
  {
    var r := AppendStage(rs[i], stage, at);
    AppendKeepsStages(rs[i], stage, at);
    assert rs == rs[..i] + [rs[i]] + rs[i + 1..];
    assert rs[i := r] == rs[..i] + [r] + rs[i + 1..];
    TallyConcat(rs[..i] + [rs[i]], rs[i + 1..], m);
    TallyConcat(rs[..i] + [r], rs[i + 1..], m);
    TallyAppend(rs[..i], rs[i], m);
    TallyAppend(rs[..i], r, m);
  }
}
