/** What any sequence of discovery runs keeps, whatever fetches, lookups and saves fail. */
module Discovery {
  import opened Normalize
  import opened JobStore

  // The invariant

  predicate SameSourceId(a: Job, b: Job) {
    a.sourceJobId != "" && a.source == b.source && a.sourceJobId == b.sourceJobId
  }

  predicate SharesKey(a: Job, b: Job) {
    a.normalizedHash == b.normalizedHash || SameSourceId(a, b)
  }

  predicate IdsInOrder(saved: seq<Job>) {
    forall i | 0 <= i < |saved| :: saved[i].id == i + 1
  }

  /** No two NORMALIZED jobs share a key. */
  predicate NormalizedUnique(saved: seq<Job>) {
    forall i, j | 0 <= i < j < |saved| && saved[i].status == Normalized && saved[j].status == Normalized ::
      !SharesKey(saved[i], saved[j])
  }

  /** A DUPLICATE shares a key with the earlier job it points at. */
  predicate LinksBack(saved: seq<Job>) {
    forall i | 0 <= i < |saved| && saved[i].status == Duplicate ::
      1 <= saved[i].duplicateOf <= i && SharesKey(saved[i], saved[saved[i].duplicateOf - 1])
  }

  predicate SavedSound(saved: seq<Job>) {
    IdsInOrder(saved) && NormalizedUnique(saved) && LinksBack(saved)
  }

  ghost predicate IndexSound(st: Store) {
    && (forall i | 0 <= i < |st.saved| :: st.saved[i].normalizedHash in st.byHash)
    && (forall i | 0 <= i < |st.saved| && st.saved[i].sourceJobId != "" ::
          (st.saved[i].source, st.saved[i].sourceJobId) in st.bySource)
    && (forall k | k in st.byHash :: st.byHash[k] in st.saved && st.byHash[k].normalizedHash == k)
    && (forall k | k in st.bySource :: st.bySource[k] in st.saved && k.1 != ""
          && st.bySource[k].source == k.0 && st.bySource[k].sourceJobId == k.1)
  }

  ghost predicate Sound(st: Store) {
    SavedSound(st.saved) && IndexSound(st)
  }

  /** What Ingest may hand to SaveJob. */
  ghost predicate Admissible(st: Store, j: Job) {
    && j.id == 0
    && match j.status
       case Normalized =>
         j.normalizedHash !in st.byHash && (j.sourceJobId == "" || (j.source, j.sourceJobId) !in st.bySource)
       case Duplicate =>
         exists target :: target in st.saved && target.id == j.duplicateOf && SharesKey(j, target)
  }

  lemma UniqueAppend(saved: seq<Job>, j: Job)
    requires NormalizedUnique(saved)
    requires j.status == Normalized ==> forall i | 0 <= i < |saved| :: !SharesKey(saved[i], j)
    ensures NormalizedUnique(saved + [j])
  {
  }

  lemma LinksAppend(saved: seq<Job>, j: Job)
    requires LinksBack(saved)
    requires j.status == Duplicate ==> 1 <= j.duplicateOf <= |saved| && SharesKey(j, saved[j.duplicateOf - 1])
    ensures LinksBack(saved + [j])
  {
  }

  lemma SavedAppend(saved: seq<Job>, j: Job)
    requires SavedSound(saved) && j.id == |saved| + 1
    requires j.status == Normalized ==> forall i | 0 <= i < |saved| :: !SharesKey(saved[i], j)
    requires j.status == Duplicate ==> 1 <= j.duplicateOf <= |saved| && SharesKey(j, saved[j.duplicateOf - 1])
    ensures SavedSound(saved + [j])
  {
    UniqueAppend(saved, j);
    LinksAppend(saved, j);
  }

  lemma TargetIsEarlier(st: Store, j: Job)
    requires IdsInOrder(st.saved) && Admissible(st, j) && j.status == Duplicate
    ensures 1 <= j.duplicateOf <= |st.saved| && SharesKey(j, st.saved[j.duplicateOf - 1])
  {
    var target :| target in st.saved && target.id == j.duplicateOf && SharesKey(j, target);
    var i :| 0 <= i < |st.saved| && st.saved[i] == target;
  }

  lemma NothingShared(st: Store, j: Job)
    requires IndexSound(st) && Admissible(st, j) && j.status == Normalized
    ensures forall i | 0 <= i < |st.saved| :: !SharesKey(st.saved[i], j)
  {
    forall i | 0 <= i < |st.saved| ensures !SharesKey(st.saved[i], j) {
      assert st.saved[i].normalizedHash in st.byHash;
    }
  }

  lemma IndexKept(st: Store, j: Job)
    requires IndexSound(st) && j.id == 0
    ensures IndexSound(Put(st, j))
  {
    var st2 := Put(st, j);
    var kept := j.(id := |st.saved| + 1);
    assert st2.saved == st.saved + [kept];
    assert forall x :: x in st2.saved <==> x in st.saved || x == kept;
  }

  lemma PutKeeps(st: Store, j: Job)
    requires Sound(st) && Admissible(st, j)
    ensures Sound(Put(st, j))
  {
    if j.status == Duplicate {
      TargetIsEarlier(st, j);
    } else {
      NothingShared(st, j);
    }
    SavedAppend(st.saved, j.(id := |st.saved| + 1));
    IndexKept(st, j);
  }

  lemma FoundIsStored(st: Store, f: Faults, j: Job)
    requires IndexSound(st)
    ensures var (st2, found) := Deduplicate(st, f, j);
      && st2 == st.(calls := st2.calls)
      && (found.Match? ==> found.job in st.saved && SharesKey(j, found.job))
      && (found.NoMatch? ==> j.normalizedHash !in st.byHash)
      && (found.NoMatch? ==> j.sourceJobId == "" || (j.source, j.sourceJobId) !in st.bySource)
      && (found.Match? && j.sourceJobId == "" ==> j.normalizedHash in st.byHash)
  {
  }

  /** Deduplicate changes no stored job, and its answer labels j so that it may be saved. */
  lemma DeduplicateEffect(st: Store, f: Faults, j: Job)
    requires Sound(st) && j.id == 0 && j.status == Normalized
    ensures var (st2, found) := Deduplicate(st, f, j);
            var labelled := Labelled(j, found);
      && st2 == st.(calls := st2.calls)
      && (labelled.Some? ==>
            && Admissible(st2, labelled.value) && labelled.value.normalizedHash == j.normalizedHash
            && (j.normalizedHash in st.byHash ==> labelled.value.status == Duplicate)
            && (j.sourceJobId == "" ==> (labelled.value.status == Duplicate <==> j.normalizedHash in st.byHash)))
  {
    FoundIsStored(st, f, j);
  }

  // Counting

  function NormalizedCount(saved: seq<Job>): nat {
    if saved == [] then 0
    else NormalizedCount(saved[..|saved| - 1]) + if saved[|saved| - 1].status == Normalized then 1 else 0
  }

  lemma CountAppend(saved: seq<Job>, j: Job)
    ensures NormalizedCount(saved + [j]) == NormalizedCount(saved) + if j.status == Normalized then 1 else 0
  {
    assert (saved + [j])[..|saved|] == saved;
  }

  /** From p to q the store only grew, and the counts say how. */
  ghost predicate Grown(p: Progress, q: Progress) {
    && Sound(q.store)
    && p.store.saved <= q.store.saved
    && p.store.byHash.Keys <= q.store.byHash.Keys
    && p.duplicates <= q.duplicates && p.ingested <= q.ingested
    && |q.store.saved| == |p.store.saved| + (q.ingested - p.ingested)
    && NormalizedCount(p.store.saved) <= NormalizedCount(q.store.saved)
    && (q.firstError == NoError ==> p.firstError == NoError)
    && (q.firstError == NoError ==>
          NormalizedCount(q.store.saved) + (q.duplicates - p.duplicates)
          == NormalizedCount(p.store.saved) + (q.ingested - p.ingested))
  }

  /** Nothing new was found. */
  ghost predicate OnlyDuplicates(p: Progress, q: Progress) {
    && NormalizedCount(q.store.saved) == NormalizedCount(p.store.saved)
    && (q.firstError == NoError ==> q.duplicates - p.duplicates == q.ingested - p.ingested)
  }

  lemma GrownTrans(p: Progress, q: Progress, r: Progress)
    requires Grown(p, q) && Grown(q, r)
    ensures Grown(p, r)
  {
  }

  lemma PutGrows(p: Progress, q: Progress, j: Job)
    requires Sound(p.store) && Admissible(p.store, j)
    requires q.store == Put(p.store, j) && q.firstError == p.firstError && q.ingested == p.ingested + 1
    requires q.duplicates == p.duplicates + if j.status == Duplicate then 1 else 0
    ensures Grown(p, q) && (j.status == Duplicate ==> OnlyDuplicates(p, q))
  {
    PutKeeps(p.store, j);
    CountAppend(p.store.saved, j.(id := |p.store.saved| + 1));
  }

  /** What one posting does, once its labelled job is known. */
  lemma SaveEffect(p: Progress, f: Faults, source: string, j: Job)
    requires Sound(p.store) && Admissible(p.store, j)
    ensures var q := SaveFound(p, f, source, j);
      && Grown(p, q) && q.fetched == p.fetched
      && (q.firstError == NoError ==> q.ingested == p.ingested + 1 && j.normalizedHash in q.store.byHash)
      && (j.status == Duplicate ==> OnlyDuplicates(p, q))
      && q.store.byHash.Keys <= p.store.byHash.Keys + {j.normalizedHash}
  {
    if !f(p.store.calls) {
      PutGrows(p.(store := Called(p.store)), SaveFound(p, f, source, j), j);
    }
  }

  lemma SaveCounts(p: Progress, f: Faults, source: string, j: Job)
    requires j.id == 0 && (j.status == Duplicate <==> j.normalizedHash in p.store.byHash)
    requires NormalizedCount(p.store.saved) == |p.store.byHash|
    ensures var q := SaveFound(p, f, source, j); NormalizedCount(q.store.saved) == |q.store.byHash|
  {
    var st := Called(p.store);
    CountAppend(st.saved, j.(id := |st.saved| + 1));
    assert Put(st, j).byHash.Keys == st.byHash.Keys + {j.normalizedHash};
  }

  /** From p to q, n postings with these fingerprints were ingested. */
  ghost predicate Ingested(p: Progress, q: Progress, hashes: set<string>, n: nat) {
    && Grown(p, q)
    && (q.firstError == NoError ==> q.ingested == p.ingested + n && hashes <= q.store.byHash.Keys)
    && (hashes <= p.store.byHash.Keys ==> OnlyDuplicates(p, q))
    && q.store.byHash.Keys <= p.store.byHash.Keys + hashes
  }

  lemma IngestedTrans(p: Progress, q: Progress, r: Progress, hashes: set<string>, more: set<string>, n: nat, k: nat)
    requires Ingested(p, q, hashes, n) && Ingested(q, r, more, k)
    ensures Ingested(p, r, hashes + more, n + k)
  {
    GrownTrans(p, q, r);
  }

  lemma JobEffect(p: Progress, f: Faults, source: string, j: Job)
    requires Sound(p.store) && j.id == 0 && j.status == Normalized
    ensures var q := DiscoverJob(p, f, source, j);
      Ingested(p, q, {j.normalizedHash}, 1) && q.fetched == p.fetched
  {
    DeduplicateEffect(p.store, f, j);
    var (st, found) := IngestJob(p.store, f, j);
    if found.Some? {
      SaveEffect(p.(store := st), f, source, found.value);
    }
  }

  lemma JobCounts(p: Progress, f: Faults, source: string, j: Job)
    requires Sound(p.store) && j.id == 0 && j.status == Normalized && j.sourceJobId == ""
    requires NormalizedCount(p.store.saved) == |p.store.byHash|
    ensures var q := DiscoverJob(p, f, source, j); NormalizedCount(q.store.saved) == |q.store.byHash|
  {
    DeduplicateEffect(p.store, f, j);
    var (st, found) := IngestJob(p.store, f, j);
    if found.Some? {
      SaveCounts(p.(store := st), f, source, found.value);
    }
  }

  // Whole feeds and whole runs

  function HashesOf(h: Hashing, source: string, raws: seq<RawJob>): set<string> {
    if raws == [] then {}
    else HashesOf(h, source, raws[..|raws| - 1]) + {FingerprintOf(h, source, raws[|raws| - 1])}
  }

  function Posts(feed: Feed): seq<RawJob> {
    match feed
    case Dead(_) => []
    case Feed(_, posts) => posts
  }

  /** The fingerprints of all postings the sources yield. */
  function Hashes(h: Hashing, feeds: seq<Feed>): set<string> {
    if feeds == [] then {}
    else
      var last := feeds[|feeds| - 1];
      Hashes(h, feeds[..|feeds| - 1]) + HashesOf(h, last.name, Posts(last))
  }

  function PostCount(feeds: seq<Feed>): nat {
    if feeds == [] then 0 else PostCount(feeds[..|feeds| - 1]) + |Posts(feeds[|feeds| - 1])|
  }

  lemma {:induction false} AllEffect(p: Progress, f: Faults, h: Hashing, source: string, raws: seq<RawJob>)
    requires Sound(p.store)
    ensures var q := DiscoverAll(p, f, h, source, raws);
      Ingested(p, q, HashesOf(h, source, raws), |raws|) && q.fetched == p.fetched
    decreases |raws|
  {
    if raws != [] {
      var front, last := raws[..|raws| - 1], raws[|raws| - 1];
      AllEffect(p, f, h, source, front);
      var m := DiscoverAll(p, f, h, source, front);
      JobEffect(m, f, source, NormalizeJob(h, source, last));
      IngestedTrans(p, m, DiscoverAll(p, f, h, source, raws), HashesOf(h, source, front),
                    {FingerprintOf(h, source, last)}, |front|, 1);
    }
  }

  lemma IngestedFrom(p: Progress, p2: Progress, q: Progress, hashes: set<string>, n: nat)
    requires p2 == p.(fetched := p2.fetched) && Ingested(p2, q, hashes, n)
    ensures Ingested(p, q, hashes, n)
  {
  }

  lemma NothingIngested(p: Progress, e: FirstError)
    requires Sound(p.store) && e != NoError
    ensures Ingested(p, p.(firstError := e), {}, 0)
  {
  }

  lemma FetchedEffect(p: Progress, p2: Progress, f: Faults, h: Hashing, source: string, raws: seq<RawJob>)
    requires Sound(p.store) && p2 == p.(fetched := p.fetched + |raws|)
    ensures var q := DiscoverAll(p2, f, h, source, raws);
      Ingested(p, q, HashesOf(h, source, raws), |raws|) && q.fetched == p.fetched + |raws|
  {
    AllEffect(p2, f, h, source, raws);
    IngestedFrom(p, p2, DiscoverAll(p2, f, h, source, raws), HashesOf(h, source, raws), |raws|);
  }

  lemma FeedEffect(p: Progress, f: Faults, h: Hashing, feed: Feed, q: Progress)
    requires Sound(p.store) && q == DiscoverFeed(p, f, h, feed)
    ensures Ingested(p, q, HashesOf(h, feed.name, Posts(feed)), |Posts(feed)|)
    ensures q.fetched == p.fetched + |Posts(feed)|
  {
    if feed.Dead? {
      NothingIngested(p, Keep(p.firstError, FetchError(feed.name)));
    } else {
      LiveFeed(p, f, h, feed);
      FetchedEffect(p, p.(fetched := p.fetched + |feed.posts|), f, h, feed.name, feed.posts);
    }
  }

  lemma {:induction false} FeedsEffect(p: Progress, f: Faults, h: Hashing, feeds: seq<Feed>)
    requires Sound(p.store)
    ensures var q := DiscoverFeeds(p, f, h, feeds);
      Ingested(p, q, Hashes(h, feeds), PostCount(feeds)) && q.fetched == p.fetched + PostCount(feeds)
    decreases |feeds|
  {
    if feeds != [] {
      var front, last := feeds[..|feeds| - 1], feeds[|feeds| - 1];
      FeedsEffect(p, f, h, front);
      var m := DiscoverFeeds(p, f, h, front);
      FeedEffect(m, f, h, last, DiscoverFeeds(p, f, h, feeds));
      IngestedTrans(p, m, DiscoverFeeds(p, f, h, feeds), Hashes(h, front), HashesOf(h, last.name, Posts(last)),
                    PostCount(front), |Posts(last)|);
    }
  }

  // The theorems

  lemma {:induction false} RunsKeep(st: Store, f: Faults, h: Hashing, runs: seq<seq<Feed>>)
    requires Sound(st)
    ensures Sound(DiscoverRuns(st, f, h, runs))
    decreases |runs|
  {
    if runs != [] {
      var front := runs[..|runs| - 1];
      RunsKeep(st, f, h, front);
      FeedsEffect(Progress(DiscoverRuns(st, f, h, front), 0, 0, 0, NoError), f, h, runs[|runs| - 1]);
    }
  }

  /** Where following DuplicateOfID from the i-th saved job ends. */
  function Root(saved: seq<Job>, i: nat): (r: nat)
    requires SavedSound(saved) && i < |saved|
    ensures r <= i && saved[r].status == Normalized
    ensures saved[i].status == Duplicate ==> r < i
    decreases i
  {
    if saved[i].status == Normalized then i else Root(saved, saved[i].duplicateOf - 1)
  }

  /** After any runs from an empty store: no two NORMALIZED jobs share a fingerprint or a
      (source, non-empty source id), every DUPLICATE points at an earlier job with which it shares a
      key, and following these links ends at a NORMALIZED job. */
  lemma NoDuplicateSurvives(f: Faults, h: Hashing, runs: seq<seq<Feed>>)
    ensures var saved := DiscoverRuns(EMPTY_STORE, f, h, runs).saved;
      && IdsInOrder(saved) && NormalizedUnique(saved) && LinksBack(saved)
      && forall i | 0 <= i < |saved| :: saved[Root(saved, i)].status == Normalized
  {
    RunsKeep(EMPTY_STORE, f, h, runs);
  }

  /** Without an error, every fetched posting is saved, and the new NORMALIZED jobs are those not
      counted as duplicates. */
  lemma ErrorFreeRunCounts(st: Store, f: Faults, h: Hashing, feeds: seq<Feed>)
    requires Sound(st) && Discover(st, f, h, feeds).firstError == NoError
    ensures var q := Discover(st, f, h, feeds);
      && q.fetched == PostCount(feeds) && q.ingested == q.fetched
      && |q.store.saved| == |st.saved| + q.fetched
      && NormalizedCount(q.store.saved) == NormalizedCount(st.saved) + q.fetched - q.duplicates
  {
    FeedsEffect(Progress(st, 0, 0, 0, NoError), f, h, feeds);
  }

  /** Running again on the same postings after an error-free run: no new NORMALIZED job, whatever
      fails now; and if nothing fails, every posting is reported as a duplicate. */
  lemma RerunFindsNothingNew(st: Store, f: Faults, h: Hashing, feeds: seq<Feed>, g: Faults)
    requires Sound(st) && Discover(st, f, h, feeds).firstError == NoError
    ensures var first := Discover(st, f, h, feeds);
            var again := Discover(first.store, g, h, feeds);
      && NormalizedCount(again.store.saved) == NormalizedCount(first.store.saved)
      && (again.firstError == NoError ==> again.duplicates == again.ingested == again.fetched)
  {
    var first := Discover(st, f, h, feeds);
    FeedsEffect(Progress(st, 0, 0, 0, NoError), f, h, feeds);
    FeedsEffect(Progress(first.store, 0, 0, 0, NoError), g, h, feeds);
  }

  /** Everything but the error report. */
  predicate SameOutcome(p: Progress, q: Progress) {
    p == q.(firstError := p.firstError)
  }

  lemma {:induction false} ErrorIsOnlyReported(
      p: Progress, e: FirstError, f: Faults, h: Hashing, source: string, raws: seq<RawJob>)
    ensures SameOutcome(DiscoverAll(p, f, h, source, raws), DiscoverAll(p.(firstError := e), f, h, source, raws))
    decreases |raws|
  {
    if raws != [] {
      ErrorIsOnlyReported(p, e, f, h, source, raws[..|raws| - 1]);
    }
  }

  lemma ErrorIsOnlyReportedByFeed(p: Progress, e: FirstError, f: Faults, h: Hashing, feed: Feed)
    ensures SameOutcome(DiscoverFeed(p, f, h, feed), DiscoverFeed(p.(firstError := e), f, h, feed))
  {
    if feed.Feed? {
      ErrorIsOnlyReported(p.(fetched := p.fetched + |feed.posts|), e, f, h, feed.name, feed.posts);
    }
  }

  lemma {:induction false} ErrorIsOnlyReportedByFeeds(
      p: Progress, e: FirstError, f: Faults, h: Hashing, feeds: seq<Feed>)
    ensures SameOutcome(DiscoverFeeds(p, f, h, feeds), DiscoverFeeds(p.(firstError := e), f, h, feeds))
    decreases |feeds|
  {
    if feeds != [] {
      var front, last := feeds[..|feeds| - 1], feeds[|feeds| - 1];
      ErrorIsOnlyReportedByFeeds(p, e, f, h, front);
      var m, n := DiscoverFeeds(p, f, h, front), DiscoverFeeds(p.(firstError := e), f, h, front);
      assert n == m.(firstError := n.firstError);
      ErrorIsOnlyReportedByFeed(m, n.firstError, f, h, last);
    }
  }

  lemma {:induction false} FeedsConcat(p: Progress, f: Faults, h: Hashing, feeds: seq<Feed>, more: seq<Feed>)
    ensures DiscoverFeeds(p, f, h, feeds + more) == DiscoverFeeds(DiscoverFeeds(p, f, h, feeds), f, h, more)
    decreases |more|
  {
    if more == [] {
      assert feeds + more == feeds;
    } else {
      FeedsConcat(p, f, h, feeds, more[..|more| - 1]);
      assert (feeds + more)[..|feeds + more| - 1] == feeds + more[..|more| - 1];
    }
  }

  /** A source whose fetch fails, anywhere among the sources, leaves the store and every count
      exactly as if it were absent. */
  lemma FailedFetchIsAbsent(st: Store, f: Faults, h: Hashing, before: seq<Feed>, dead: Feed, after: seq<Feed>)
    requires dead.Dead?
    ensures SameOutcome(Discover(st, f, h, before + [dead] + after), Discover(st, f, h, before + after))
    ensures Discover(st, f, h, before + [dead] + after).firstError != NoError
  {
    var p := Progress(st, 0, 0, 0, NoError);
    FeedsConcat(p, f, h, before + [dead], after);
    FeedsConcat(p, f, h, before, [dead]);
    FeedsConcat(p, f, h, before, after);
    var m := DiscoverFeeds(p, f, h, before);
    var d := DiscoverFeed(m, f, h, dead);
    assert DiscoverFeeds(m, f, h, [dead]) == d by {
      assert [dead][..0] == [];
    }
    ErrorIsOnlyReportedByFeeds(m, d.firstError, f, h, after);
    assert d == m.(firstError := d.firstError);
    ErrorPersists(d, f, h, after);
  }

  lemma {:induction false} ErrorPersistsInAll(p: Progress, f: Faults, h: Hashing, source: string, raws: seq<RawJob>)
    requires p.firstError != NoError
    ensures DiscoverAll(p, f, h, source, raws).firstError == p.firstError
    decreases |raws|
  {
    if raws != [] {
      ErrorPersistsInAll(p, f, h, source, raws[..|raws| - 1]);
    }
  }

  lemma {:induction false} ErrorPersists(p: Progress, f: Faults, h: Hashing, feeds: seq<Feed>)
    requires p.firstError != NoError
    ensures DiscoverFeeds(p, f, h, feeds).firstError == p.firstError
    decreases |feeds|
  {
    if feeds != [] {
      var front, last := feeds[..|feeds| - 1], feeds[|feeds| - 1];
      ErrorPersists(p, f, h, front);
      if last.Feed? {
        var m := DiscoverFeeds(p, f, h, front);
        ErrorPersistsInAll(m.(fetched := m.fetched + |last.posts|), f, h, last.name, last.posts);
      }
    }
  }

  predicate NoSourceIds(feeds: seq<Feed>) {
    forall feed, raw | feed in feeds && raw in Posts(feed) :: raw.sourceJobId == ""
  }

  lemma {:induction false} AllCounts(p: Progress, f: Faults, h: Hashing, source: string, raws: seq<RawJob>)
    requires Sound(p.store) && NormalizedCount(p.store.saved) == |p.store.byHash|
    requires forall raw | raw in raws :: raw.sourceJobId == ""
    ensures var q := DiscoverAll(p, f, h, source, raws); NormalizedCount(q.store.saved) == |q.store.byHash|
    decreases |raws|
  {
    if raws != [] {
      var front, last := raws[..|raws| - 1], raws[|raws| - 1];
      AllCounts(p, f, h, source, front);
      AllEffect(p, f, h, source, front);
      JobCounts(DiscoverAll(p, f, h, source, front), f, source, NormalizeJob(h, source, last));
    }
  }

  lemma FeedCounts(p: Progress, f: Faults, h: Hashing, feed: Feed, q: Progress)
    requires q == DiscoverFeed(p, f, h, feed)
    requires Sound(p.store) && NormalizedCount(p.store.saved) == |p.store.byHash|
    requires forall raw | raw in Posts(feed) :: raw.sourceJobId == ""
    ensures NormalizedCount(q.store.saved) == |q.store.byHash|
  {
    if feed.Feed? {
      LiveFeed(p, f, h, feed);
      AllCounts(p.(fetched := p.fetched + |feed.posts|), f, h, feed.name, feed.posts);
    }
  }

  lemma {:induction false} FeedsCount(p: Progress, f: Faults, h: Hashing, feeds: seq<Feed>)
    requires Sound(p.store) && NormalizedCount(p.store.saved) == |p.store.byHash| && NoSourceIds(feeds)
    ensures var q := DiscoverFeeds(p, f, h, feeds); NormalizedCount(q.store.saved) == |q.store.byHash|
    decreases |feeds|
  {
    if feeds != [] {
      var front, last := feeds[..|feeds| - 1], feeds[|feeds| - 1];
      assert last in feeds && forall feed | feed in front :: feed in feeds;
      FeedsCount(p, f, h, front);
      FeedsSound(p, f, h, front);
      FeedCounts(DiscoverFeeds(p, f, h, front), f, h, last, DiscoverFeeds(p, f, h, feeds));
    }
  }

  lemma FeedsSound(p: Progress, f: Faults, h: Hashing, feeds: seq<Feed>)
    requires Sound(p.store)
    ensures Sound(DiscoverFeeds(p, f, h, feeds).store)
  {
    FeedsEffect(p, f, h, feeds);
  }

  lemma CountOfHashes(p: Progress, q: Progress, hashes: set<string>, n: nat)
    requires Ingested(p, q, hashes, n) && p.store == EMPTY_STORE && q.firstError == NoError
    requires NormalizedCount(q.store.saved) == |q.store.byHash|
    ensures NormalizedCount(q.store.saved) == |hashes|
  {
    assert q.store.byHash.Keys == hashes;
  }

  /** With no source ids, an error-free run from an empty store leaves one NORMALIZED job per
      distinct fingerprint. */
  lemma OnePerFingerprint(f: Faults, h: Hashing, feeds: seq<Feed>)
    requires NoSourceIds(feeds) && Discover(EMPTY_STORE, f, h, feeds).firstError == NoError
    ensures NormalizedCount(Discover(EMPTY_STORE, f, h, feeds).store.saved) == |Hashes(h, feeds)|
  {
    var p := Progress(EMPTY_STORE, 0, 0, 0, NoError);
    FeedsEffect(p, f, h, feeds);
    FeedsCount(p, f, h, feeds);
    CountOfHashes(p, Discover(EMPTY_STORE, f, h, feeds), Hashes(h, feeds), PostCount(feeds));
  }

  ghost predicate SomePosting(h: Hashing, source: string, raws: seq<RawJob>, hash: string) {
    exists raw :: raw in raws && FingerprintOf(h, source, raw) == hash
  }

  lemma {:induction false} HashOfMember(h: Hashing, source: string, raws: seq<RawJob>, hash: string)
    ensures hash in HashesOf(h, source, raws) <==> SomePosting(h, source, raws, hash)
    decreases |raws|
  {
    if raws != [] {
      HashOfMember(h, source, raws[..|raws| - 1], hash);
      assert raws == raws[..|raws| - 1] + [raws[|raws| - 1]];
    }
  }

  predicate Yields(feeds: seq<Feed>, source: string, raw: RawJob) {
    exists feed | feed in feeds :: feed.name == source && raw in Posts(feed)
  }

  lemma YieldsAppend(front: seq<Feed>, last: Feed, source: string, raw: RawJob)
    ensures Yields(front + [last], source, raw)
        <==> Yields(front, source, raw) || (source == last.name && raw in Posts(last))
  {
    if source == last.name && raw in Posts(last) {
      assert last in front + [last];
    }
    if Yields(front, source, raw) {
      var feed :| feed in front && feed.name == source && raw in Posts(feed);
      assert feed in front + [last];
    }
  }

  ghost predicate SomeYielded(h: Hashing, feeds: seq<Feed>, hash: string) {
    exists source, raw :: Yields(feeds, source, raw) && FingerprintOf(h, source, raw) == hash
  }

  lemma SomeYieldedAppend(h: Hashing, front: seq<Feed>, last: Feed, hash: string)
    ensures SomeYielded(h, front + [last], hash)
        <==> SomeYielded(h, front, hash) || SomePosting(h, last.name, Posts(last), hash)
  {
    forall source, raw ensures Yields(front + [last], source, raw)
        <==> Yields(front, source, raw) || (source == last.name && raw in Posts(last)) {
      YieldsAppend(front, last, source, raw);
    }
    if raw :| raw in Posts(last) && FingerprintOf(h, last.name, raw) == hash {
      assert Yields(front + [last], last.name, raw);
    }
  }

  lemma {:induction false} HashesMember(h: Hashing, feeds: seq<Feed>, hash: string)
    ensures hash in Hashes(h, feeds) <==> SomeYielded(h, feeds, hash)
    decreases |feeds|
  {
    if feeds != [] {
      var front, last := feeds[..|feeds| - 1], feeds[|feeds| - 1];
      HashesMember(h, front, hash);
      HashOfMember(h, last.name, Posts(last), hash);
      SomeYieldedAppend(h, front, last, hash);
      assert feeds == front + [last];
    }
  }

  /** The number of NORMALIZED jobs does not depend on the order of sources or postings, nor on the
      faults that were survived. */
  lemma OrderDoesNotMatter(f: Faults, g: Faults, h: Hashing, feeds: seq<Feed>, other: seq<Feed>)
    requires NoSourceIds(feeds) && NoSourceIds(other)
    requires forall source, raw :: Yields(feeds, source, raw) <==> Yields(other, source, raw)
    requires Discover(EMPTY_STORE, f, h, feeds).firstError == NoError == Discover(EMPTY_STORE, g, h, other).firstError
    ensures NormalizedCount(Discover(EMPTY_STORE, f, h, feeds).store.saved)
         == NormalizedCount(Discover(EMPTY_STORE, g, h, other).store.saved)
  {
    OnePerFingerprint(f, h, feeds);
    OnePerFingerprint(g, h, other);
    forall hash ensures hash in Hashes(h, feeds) <==> hash in Hashes(h, other) {
      HashesMember(h, feeds, hash);
      HashesMember(h, other, hash);
    }
    assert Hashes(h, feeds) == Hashes(h, other);
  }
}
