/** Reports grouped by a key: one row per key present, in key order, whatever order the map and
    the sort produce (internal/outcome/analytics.go:99-131, 195-250). */
module Reports {
  import opened Outcome
  import opened Analytics

  /** (variant, version) for resumes; (source, 0) and (role, 0) for the other two reports. */
  datatype Key = Key(name: string, version: int)

  datatype Row = Row(key: Key, submitted: nat, responseRate: Rate, interviewRate: Rate, offerCount: nat)

  function VersionKey(r: Record): Key { Key(r.resumeVariant, r.resumeVersion) }
  function SourceKey(r: Record): Key { Key(r.source, 0) }
  function RoleKey(r: Record): Key { Key(r.role, 0) }

  // The order of the rows

  /** Byte order of UTF-8 strings, which is the order of their code points. */
  predicate StrLess(a: string, b: string) {
    b != [] && (a == [] || a[0] < b[0] || (a[0] == b[0] && StrLess(a[1..], b[1..])))
  }

  predicate KeyLess(a: Key, b: Key) {
    if a.name != b.name then StrLess(a.name, b.name) else a.version < b.version
  }

  lemma {:induction false} StrTotal(a: string, b: string)
    ensures StrLess(a, b) || a == b || StrLess(b, a)
    ensures !(StrLess(a, b) && StrLess(b, a)) && !StrLess(a, a)
  {
    if a != [] && b != [] {
      StrTotal(a[1..], b[1..]);
      StrTotal(a[1..], a[1..]);
      assert a == [a[0]] + a[1..] && b == [b[0]] + b[1..];
    } else if a != [] {
      StrTotal(a[1..], a[1..]);
    }
  }

  lemma {:induction false} StrTransitive(a: string, b: string, c: string)
    requires StrLess(a, b) && StrLess(b, c)
    ensures StrLess(a, c)
  {
    if a != [] && a[0] == b[0] == c[0] {
      StrTransitive(a[1..], b[1..], c[1..]);
    }
  }

  lemma KeyOrder(a: Key, b: Key)
    ensures KeyLess(a, b) || a == b || KeyLess(b, a)
    ensures !(KeyLess(a, b) && KeyLess(b, a)) && !KeyLess(a, a)
  {
    StrTotal(a.name, b.name);
  }

  lemma KeyTransitive(a: Key, b: Key, c: Key)
    requires KeyLess(a, b) && KeyLess(b, c)
    ensures KeyLess(a, c)
  {
    StrTotal(a.name, b.name);
    if a.name != b.name && b.name != c.name {
      StrTransitive(a.name, b.name, c.name);
      StrTotal(a.name, a.name);
    }
  }

  // What a report is

  ghost predicate IsRowOf(row: Row, group: seq<Record>) {
    var submitted := Tally(group, Reached(Submitted));
    && row.submitted == submitted
    && row.responseRate == ComputeRate(Tally(group, Reached(Responded)), submitted)
    && row.interviewRate == ComputeRate(Tally(group, Reached(Interview)), submitted)
    && row.offerCount == Tally(group, Reached(Offer))
  }

  function Keys(rows: seq<Row>): seq<Key> {
    seq(|rows|, i requires 0 <= i < |rows| => rows[i].key)
  }

  predicate Increasing(keys: seq<Key>) {
    forall i, j | 0 <= i < j < |keys| :: KeyLess(keys[i], keys[j])
  }

  ghost predicate Covers(keys: seq<Key>, rs: seq<Record>, keyOf: Record -> Key) {
    && (forall r | r in rs :: keyOf(r) in keys)
    && (forall k | k in keys :: exists r | r in rs :: keyOf(r) == k)
  }

  /** Strictly increasing keys, exactly those present, each row computed from the records of its key. */
  ghost predicate IsReport(rows: seq<Row>, rs: seq<Record>, keyOf: Record -> Key) {
    && Increasing(Keys(rows))
    && Covers(Keys(rows), rs, keyOf)
    && forall i | 0 <= i < |rows| :: IsRowOf(rows[i], Group(rs, keyOf, rows[i].key))
  }

  // There is only one report, and it does not depend on the order of the records

  lemma {:induction false} IncreasingUnique(a: seq<Key>, b: seq<Key>)
    requires Increasing(a) && Increasing(b)
    requires forall k :: k in a <==> k in b
    ensures a == b
    decreases |a|
  {
    if a == [] {
      if b != [] {
        HeadIn(b);
      }
    } else if b == [] {
      HeadIn(a);
    } else {
      assert a[0] in a && b[0] in b;
      HeadsEqual(a, b);
      forall k ensures k in a[1..] <==> k in b[1..] {
        TailMember(a, k);
        TailMember(b, k);
      }
      IncreasingUnique(a[1..], b[1..]);
      assert a == [a[0]] + a[1..] && b == [b[0]] + b[1..];
    }
  }

  lemma HeadIn(a: seq<Key>)
    requires a != []
    ensures exists k :: k in a
  {
    assert a[0] in a;
  }

  lemma TailMember(a: seq<Key>, k: Key)
    requires a != [] && Increasing(a)
    ensures k in a[1..] <==> k in a && k != a[0]
  {
    if k in a[1..] {
      var i :| 0 <= i < |a[1..]| && a[1..][i] == k;
      assert KeyLess(a[0], a[i + 1]);
      KeyOrder(a[0], k);
    }
    assert a == [a[0]] + a[1..];
  }

  lemma HeadsEqual(a: seq<Key>, b: seq<Key>)
    requires a != [] && b != [] && Increasing(a) && Increasing(b)
    requires a[0] in b && b[0] in a
    ensures a[0] == b[0]
  {
    var i :| 0 <= i < |a| && a[i] == b[0];
    var j :| 0 <= j < |b| && b[j] == a[0];
    if i > 0 && j > 0 {
      KeyOrder(a[0], b[0]);
    }
  }

  lemma CoversSame(a: seq<Key>, b: seq<Key>, rs: seq<Record>, keyOf: Record -> Key)
    requires Covers(a, rs, keyOf) && Covers(b, rs, keyOf)
    ensures forall k :: k in a <==> k in b
  {
    forall k ensures k in a <==> k in b {
      if k in a {
        var r :| r in rs && keyOf(r) == k;
      }
      if k in b {
        var r :| r in rs && keyOf(r) == k;
      }
    }
  }

  /** Determinism: any two outcomes of the same report are equal, row by row. */
  lemma ReportUnique(a: seq<Row>, b: seq<Row>, rs: seq<Record>, keyOf: Record -> Key)
    requires IsReport(a, rs, keyOf) && IsReport(b, rs, keyOf)
    ensures a == b
  {
    CoversSame(Keys(a), Keys(b), rs, keyOf);
    IncreasingUnique(Keys(a), Keys(b));
    assert |a| == |Keys(a)| == |Keys(b)| == |b|;
    forall i | 0 <= i < |a| ensures a[i] == b[i] {
      assert a[i].key == Keys(a)[i] == Keys(b)[i] == b[i].key;
    }
  }

  /** The report of a permutation of the records is the report of the records. */
  lemma ReportPermuted(rows: seq<Row>, rs: seq<Record>, shuffled: seq<Record>, keyOf: Record -> Key)
    requires multiset(rs) == multiset(shuffled) && IsReport(rows, rs, keyOf)
    ensures IsReport(rows, shuffled, keyOf)
  {
    forall r ensures r in rs <==> r in shuffled {
      assert r in rs <==> r in multiset(rs);
      assert r in shuffled <==> r in multiset(shuffled);
    }
    forall i | 0 <= i < |rows| ensures IsRowOf(rows[i], Group(shuffled, keyOf, rows[i].key)) {
      var key := rows[i].key;
      GroupPermuted(rs, shuffled, keyOf, key);
      forall m ensures Tally(Group(rs, keyOf, key), m) == Tally(Group(shuffled, keyOf, key), m) {
        TallyPermuted(Group(rs, keyOf, key), Group(shuffled, keyOf, key), m);
      }
    }
  }

  lemma IncreasingDistinct(keys: seq<Key>)
    requires Increasing(keys)
    ensures Distinct(keys)
  {
    forall i, j | 0 <= i < j < |keys| ensures keys[i] != keys[j] {
      KeyOrder(keys[i], keys[j]);
    }
  }

  /** What a row reports of a stage; only the stages of `Reported` are reported. */
  function CountOf(row: Row, stage: Stage): int {
    match stage
    case Submitted => row.submitted
    case Responded => row.responseRate.numerator
    case Interview => row.interviewRate.numerator
    case _ => row.offerCount
  }

  predicate Reported(stage: Stage) {
    stage == Submitted || stage == Responded || stage == Interview || stage == Offer
  }

  function SumOver(rows: seq<Row>, stage: Stage): int {
    if rows == [] then 0 else SumOver(rows[..|rows| - 1], stage) + CountOf(rows[|rows| - 1], stage)
  }

  lemma {:induction false} RowSums(rows: seq<Row>, rs: seq<Record>, keyOf: Record -> Key, stage: Stage)
    requires forall i | 0 <= i < |rows| :: IsRowOf(rows[i], Group(rs, keyOf, rows[i].key))
    requires Reported(stage)
    ensures SumOver(rows, stage) == SumOfGroups(rs, keyOf, Keys(rows), Reached(stage))
    decreases |rows|
  {
    if rows != [] {
      var n := |rows| - 1;
      RowSums(rows[..n], rs, keyOf, stage);
      assert Keys(rows)[..n] == Keys(rows[..n]);
    }
  }

  /** Conservation: the rows of a report add up to the global funnel. */
  lemma ReportConserves(rows: seq<Row>, rs: seq<Record>, keyOf: Record -> Key, stage: Stage)
    requires IsReport(rows, rs, keyOf) && Reported(stage)
    ensures SumOver(rows, stage) == Tally(rs, Reached(stage))
  {
    RowSums(rows, rs, keyOf, stage);
    IncreasingDistinct(Keys(rows));
    GroupsConserve(rs, keyOf, Keys(rows), Reached(stage));
  }

  // The program: group into a map, visit the map in any order, sort

  ghost predicate IsGrouping(groups: map<Key, seq<Record>>, rs: seq<Record>, keyOf: Record -> Key) {
    && (forall r | r in rs :: keyOf(r) in groups)
    && (forall k | k in groups :: groups[k] == Group(rs, keyOf, k) && exists r | r in rs :: keyOf(r) == k)
  }

  lemma GroupOfNone(rs: seq<Record>, keyOf: Record -> Key, key: Key)
    requires forall r | r in rs :: keyOf(r) != key
    ensures Group(rs, keyOf, key) == []
  {
    GroupMembers(rs, keyOf, key);
    if Group(rs, keyOf, key) != [] {
      assert Group(rs, keyOf, key)[0] in Group(rs, keyOf, key);
    }
  }

  lemma GroupingStep(groups: map<Key, seq<Record>>, rs: seq<Record>, r: Record, keyOf: Record -> Key)
    requires IsGrouping(groups, rs, keyOf)
    ensures var k := keyOf(r);
      IsGrouping(groups[k := (if k in groups then groups[k] else []) + [r]], rs + [r], keyOf)
  {
    var k := keyOf(r);
    var after := groups[k := (if k in groups then groups[k] else []) + [r]];
    forall x | x in after ensures after[x] == Group(rs + [r], keyOf, x) && exists q | q in rs + [r] :: keyOf(q) == x {
      GroupAppend(rs, r, keyOf, x);
      if x == k {
        assert r in rs + [r];
        if k !in groups {
          GroupOfNone(rs, keyOf, k);
        }
      } else {
        var q :| q in rs && keyOf(q) == x;
        assert q in rs + [r];
      }
    }
  }

  method GroupRecords(rs: seq<Record>, keyOf: Record -> Key) returns (groups: map<Key, seq<Record>>)
    ensures IsGrouping(groups, rs, keyOf)
  {
    groups := map[];
    for i := 0 to |rs|
      invariant IsGrouping(groups, rs[..i], keyOf)
    {
      var k := keyOf(rs[i]);
      GroupingStep(groups, rs[..i], rs[i], keyOf);
      assert rs[..i + 1] == rs[..i] + [rs[i]];
      groups := groups[k := (if k in groups then groups[k] else []) + [rs[i]]];
    }
    assert rs[..|rs|] == rs;
  }

  method RowFor(key: Key, group: seq<Record>) returns (row: Row)
    ensures row.key == key && IsRowOf(row, group)
  {
    var f := Funnel(group);
    row := Row(key, f.submitted, ComputeRate(f.responded, f.submitted), ComputeRate(f.interview, f.submitted), f.offer);
  }

  /** What any sort leaves: the same rows, with no row before one that is less. */
  ghost predicate IsSortOf(sorted: seq<Row>, rows: seq<Row>) {
    && multiset(sorted) == multiset(rows)
    && forall i, j | 0 <= i < j < |sorted| :: !KeyLess(sorted[j].key, sorted[i].key)
  }

  /** A sort; callers rely on IsSortOf alone, which every sort, stable or not, meets. */
  method Sort(rows: seq<Row>) returns (sorted: seq<Row>)
    ensures IsSortOf(sorted, rows)
  {
    sorted := [];
    for n := 0 to |rows|
      invariant IsSortOf(sorted, rows[..n])
    {
      sorted := Insert(sorted, rows[n]);
      assert rows[..n + 1] == rows[..n] + [rows[n]];
    }
    assert rows[..|rows|] == rows;
  }

  method Insert(sorted: seq<Row>, row: Row) returns (longer: seq<Row>)
    requires forall i, j | 0 <= i < j < |sorted| :: !KeyLess(sorted[j].key, sorted[i].key)
    ensures IsSortOf(longer, sorted + [row])
  {
    var p := |sorted|;
    while p > 0 && KeyLess(row.key, sorted[p - 1].key)
      invariant 0 <= p <= |sorted|
      invariant forall i | p <= i < |sorted| :: KeyLess(row.key, sorted[i].key)
    {
      p := p - 1;
    }
    longer := sorted[..p] + [row] + sorted[p..];
    assert sorted == sorted[..p] + sorted[p..];
    InsertedSorted(sorted, row, p);
  }

  lemma InsertedSorted(sorted: seq<Row>, row: Row, p: nat)
    requires p <= |sorted|
    requires forall i, j | 0 <= i < j < |sorted| :: !KeyLess(sorted[j].key, sorted[i].key)
    requires forall i | p <= i < |sorted| :: KeyLess(row.key, sorted[i].key)
    requires p > 0 ==> !KeyLess(row.key, sorted[p - 1].key)
    ensures var longer := sorted[..p] + [row] + sorted[p..];
      forall i, j | 0 <= i < j < |longer| :: !KeyLess(longer[j].key, longer[i].key)
  {
    var longer := sorted[..p] + [row] + sorted[p..];
    forall i, j | 0 <= i < j < |longer| ensures !KeyLess(longer[j].key, longer[i].key) {
      if i == p {
        KeyOrder(row.key, longer[j].key);
      } else if j == p {
        KeyOrder(sorted[i].key, sorted[i].key);
        BeforeInserted(sorted[i].key, sorted[p - 1].key, row.key);
      }
    }
  }

  lemma BeforeInserted(a: Key, b: Key, x: Key)
    requires !KeyLess(b, a) && !KeyLess(x, b)
    ensures !KeyLess(x, a)
  {
    KeyOrder(a, b);
    KeyOrder(b, x);
    KeyOrder(a, x);
    if KeyLess(a, b) && KeyLess(b, x) {
      KeyTransitive(a, b, x);
    }
  }

  /** Rows of one key each, sorted: the report. */
  lemma SortedRowsAreReport(sorted: seq<Row>, rows: seq<Row>, rs: seq<Record>, keyOf: Record -> Key)
    requires IsSortOf(sorted, rows)
    requires Distinct(Keys(rows)) && Covers(Keys(rows), rs, keyOf)
    requires forall i | 0 <= i < |rows| :: IsRowOf(rows[i], Group(rs, keyOf, rows[i].key))
    ensures IsReport(sorted, rs, keyOf)
  {
    SameRows(sorted, rows);
    SortedDistinct(sorted, rows);
    forall i, j | 0 <= i < j < |sorted| ensures KeyLess(Keys(sorted)[i], Keys(sorted)[j]) {
      KeyOrder(sorted[i].key, sorted[j].key);
    }
    forall i | 0 <= i < |sorted| ensures IsRowOf(sorted[i], Group(rs, keyOf, sorted[i].key)) {
      assert sorted[i] in rows;
      var j :| 0 <= j < |rows| && rows[j] == sorted[i];
    }
    forall k ensures k in Keys(sorted) <==> k in Keys(rows) {
      KeyIn(sorted, k);
      KeyIn(rows, k);
    }
  }

  lemma KeyIn(rows: seq<Row>, k: Key)
    ensures k in Keys(rows) <==> exists row :: row in rows && row.key == k
  {
    if k in Keys(rows) {
      var i :| 0 <= i < |rows| && Keys(rows)[i] == k;
      assert rows[i] in rows;
    }
    if row :| row in rows && row.key == k {
      var i :| 0 <= i < |rows| && rows[i] == row;
      assert Keys(rows)[i] == k;
    }
  }

  lemma SameRows(sorted: seq<Row>, rows: seq<Row>)
    requires multiset(sorted) == multiset(rows)
    ensures forall row :: row in sorted <==> row in rows
  {
    forall row ensures row in sorted <==> row in rows {
      assert row in sorted <==> row in multiset(sorted);
      assert row in rows <==> row in multiset(rows);
    }
  }

  lemma SortedDistinct(sorted: seq<Row>, rows: seq<Row>)
    requires multiset(sorted) == multiset(rows) && Distinct(Keys(rows))
    ensures Distinct(Keys(sorted))
  {
    SameRows(sorted, rows);
    forall i, j | 0 <= i < j < |sorted| ensures Keys(sorted)[i] != Keys(sorted)[j] {
      if sorted[i].key == sorted[j].key {
        assert sorted[i] in rows && sorted[j] in rows;
        var a :| 0 <= a < |rows| && rows[a] == sorted[i];
        var b :| 0 <= b < |rows| && rows[b] == sorted[j];
        assert Keys(rows)[a] == Keys(rows)[b];
        TwiceIn(sorted, i, j);
        OnceIn(rows, a);
      }
    }
  }

  lemma TwiceIn(rows: seq<Row>, i: nat, j: nat)
    requires i < j < |rows| && rows[i] == rows[j]
    ensures multiset(rows)[rows[i]] >= 2
  {
    assert rows == rows[..j] + [rows[j]] + rows[j + 1..];
    assert rows[..j][i] in rows[..j];
    assert multiset(rows[..j])[rows[i]] >= 1;
  }

  lemma OnceIn(rows: seq<Row>, a: nat)
    requires a < |rows| && Distinct(Keys(rows))
    ensures multiset(rows)[rows[a]] == 1
  {
    assert rows == rows[..a] + [rows[a]] + rows[a + 1..];
    forall i | 0 <= i < |rows| && i != a ensures rows[i] != rows[a] {
      assert Keys(rows)[i] != Keys(rows)[a];
    }
    assert rows[a] !in rows[..a] && rows[a] !in rows[a + 1..];
  }

  /** The rows built so far are one for each key visited so far. */
  ghost predicate RowsFor(rows: seq<Row>, done: set<Key>, groups: map<Key, seq<Record>>) {
    && Distinct(Keys(rows)) && done <= groups.Keys
    && (forall k :: k in Keys(rows) <==> k in done)
    && forall i | 0 <= i < |rows| :: rows[i].key in groups && IsRowOf(rows[i], groups[rows[i].key])
  }

  lemma RowsForStep(rows: seq<Row>, done: set<Key>, groups: map<Key, seq<Record>>, row: Row)
    requires RowsFor(rows, done, groups) && row.key in groups && row.key !in done && IsRowOf(row, groups[row.key])
    ensures RowsFor(rows + [row], done + {row.key}, groups)
  {
    assert Keys(rows + [row]) == Keys(rows) + [row.key];
  }

  method ByKey(rs: seq<Record>, keyOf: Record -> Key) returns (out: seq<Row>)
    ensures IsReport(out, rs, keyOf)
  {
    var groups := GroupRecords(rs, keyOf);
    var rows: seq<Row> := [];
    var todo := groups.Keys;
    while todo != {}
      invariant todo <= groups.Keys && RowsFor(rows, groups.Keys - todo, groups)
      decreases |todo|
    {
      var k :| k in todo;
      var row := RowFor(k, groups[k]);
      RowsForStep(rows, groups.Keys - todo, groups, row);
      assert groups.Keys - (todo - {k}) == (groups.Keys - todo) + {k};
      rows := rows + [row];
      todo := todo - {k};
    }
    out := Sort(rows);
    assert groups.Keys - {} == groups.Keys;
    SortedRowsAreReport(out, rows, rs, keyOf);
  }

  method ByResumeVersion(rs: seq<Record>) returns (out: seq<Row>)
    ensures IsReport(out, rs, VersionKey)
  {
    out := ByKey(rs, VersionKey);
  }

  method BySource(rs: seq<Record>) returns (out: seq<Row>)
    ensures IsReport(out, rs, SourceKey)
  {
    out := ByKey(rs, SourceKey);
  }

  method ByRole(rs: seq<Record>) returns (out: seq<Row>)
    ensures IsReport(out, rs, RoleKey)
  {
    out := ByKey(rs, RoleKey);
  }
}
