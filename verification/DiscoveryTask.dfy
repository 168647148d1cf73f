/** The discovery task as the program has it: nested loops over sources and postings that update
    counters and write to the store (internal/scheduler/discovery.go). */
module DiscoveryTask {
  import opened Normalize
  import opened JobStore
  import opened Wrappers

  class Task {
    const hashing: Hashing
    const faults: Faults

    var saved: seq<Job>
    var bySource: map<(string, string), Job>
    var byHash: map<string, Job>
    var calls: nat

    ghost function View(): Store
      reads this
    {
      Store(saved, bySource, byHash, calls)
    }

    constructor (hashing: Hashing, faults: Faults)
      ensures View() == EMPTY_STORE && this.hashing == hashing && this.faults == faults
    {
      this.hashing, this.faults := hashing, faults;
      saved, bySource, byHash, calls := [], map[], map[], 0;
    }

    method FindBySourceJobID(source: string, id: string) returns (found: Lookup)
      modifies `calls
      ensures View() == Called(old(View())) && found == FindBySource(old(View()), faults, source, id)
    {
      found := if (source, id) in bySource then Match(bySource[(source, id)]) else NoMatch;
      if faults(calls) {
        found := Failed;
      }
      calls := calls + 1;
    }

    method FindByNormalizedHash(hash: string) returns (found: Lookup)
      modifies `calls
      ensures View() == Called(old(View())) && found == FindByHash(old(View()), faults, hash)
    {
      found := if hash in byHash then Match(byHash[hash]) else NoMatch;
      if faults(calls) {
        found := Failed;
      }
      calls := calls + 1;
    }

    method SaveJob(job: Job) returns (ok: bool)
      modifies this
      ensures ok == !faults(old(calls))
      ensures View() == if ok then Put(Called(old(View())), job) else Called(old(View()))
    {
      ok := !faults(calls);
      calls := calls + 1;
      if ok {
        var j := job;
        if j.id == 0 {
          j := j.(id := |saved| + 1);
        }
        saved := saved + [j];
        if j.sourceJobId != "" {
          bySource := bySource[(j.source, j.sourceJobId) := j];
        }
        byHash := byHash[j.normalizedHash := j];
      }
    }

    /** Fills the audit data field by field, in any order of the extra fields. */
    method Normalize(source: string, raw: RawJob) returns (j: Job)
      ensures j == NormalizeJob(hashing, source, raw)
    {
      var rawData := BaseData(raw);
      var todo := raw.fields.Keys;
      while todo != {}
        invariant todo <= raw.fields.Keys
        invariant rawData == BaseData(raw) + (map k | k in raw.fields && k !in todo :: raw.fields[k])
        decreases |todo|
      {
        var k :| k in todo;
        rawData := rawData[k := raw.fields[k]];
        todo := todo - {k};
      }
      assert (map k | k in raw.fields && k !in todo :: raw.fields[k]) == raw.fields;
      var company, title, location := NormalizeText(raw.company), NormalizeText(raw.title), NormalizeText(raw.location);
      j := Job(0, source, raw.sourceJobId, raw.url, company, title, location, raw.description, rawData,
               Fingerprint(hashing, source, company, title, location), 0, Normalized);
    }

    method Deduplicate(j: Job) returns (found: Lookup)
      modifies `calls
      ensures (View(), found) == JobStore.Deduplicate(old(View()), faults, j)
    {
      if j.sourceJobId != "" {
        found := FindBySourceJobID(j.source, j.sourceJobId);
        if found != NoMatch {
          return;
        }
      }
      found := FindByNormalizedHash(j.normalizedHash);
    }

    method Ingest(source: string, raw: RawJob) returns (result: Maybe<Job>)
      modifies `calls
      ensures (View(), result) == JobStore.Ingest(old(View()), faults, hashing, source, raw)
    {
      var j := Normalize(source, raw);
      var found := Deduplicate(j);
      if found.Failed? {
        return None;
      }
      if found.Match? {
        j := j.(status := Duplicate);
        j := j.(duplicateOf := found.job.id);
      }
      return Some(j);
    }

    /** One turn of the inner loop. */
    method DiscoverJob(
        source: string, raw: RawJob, ghost fetched: nat, ingested: nat, duplicates: nat, firstErr: FirstError)
      returns (ingested': nat, duplicates': nat, firstErr': FirstError)
      modifies this
      ensures Progress(View(), fetched, ingested', duplicates', firstErr')
           == DiscoverOne(Progress(old(View()), fetched, ingested, duplicates, firstErr), faults, hashing, source, raw)
    {
      ingested', duplicates', firstErr' := ingested, duplicates, firstErr;
      var j := Ingest(source, raw);
      if j.None? {
        if firstErr == NoError {
          firstErr' := IngestError(source);
        }
        return;
      }
      if j.value.status == Duplicate {
        duplicates' := duplicates + 1;
      }
      var ok := SaveJob(j.value);
      if !ok {
        if firstErr == NoError {
          firstErr' := SaveError(source);
        }
        return;
      }
      ingested' := ingested + 1;
    }

    /** The inner loop: the postings of one source. */
    method DiscoverPosts(
        source: string, raws: seq<RawJob>, ghost fetched: nat, ingested: nat, duplicates: nat, firstErr: FirstError)
      returns (ingested': nat, duplicates': nat, firstErr': FirstError)
      modifies this
      ensures Progress(View(), fetched, ingested', duplicates', firstErr')
           == DiscoverAll(Progress(old(View()), fetched, ingested, duplicates, firstErr), faults, hashing, source, raws)
    {
      ingested', duplicates', firstErr' := ingested, duplicates, firstErr;
      ghost var before := Progress(View(), fetched, ingested, duplicates, firstErr);
      for i := 0 to |raws|
        invariant Progress(View(), fetched, ingested', duplicates', firstErr')
               == DiscoverAll(before, faults, hashing, source, raws[..i])
      {
        assert raws[..i + 1][..i] == raws[..i];
        ingested', duplicates', firstErr' := DiscoverJob(source, raws[i], fetched, ingested', duplicates', firstErr');
      }
      assert raws[..|raws|] == raws;
    }

    /** One turn of the outer loop. */
    method DiscoverSource(feed: Feed, fetched: nat, ingested: nat, duplicates: nat, firstErr: FirstError)
      returns (fetched': nat, ingested': nat, duplicates': nat, firstErr': FirstError)
      modifies this
      ensures Progress(View(), fetched', ingested', duplicates', firstErr')
           == DiscoverFeed(Progress(old(View()), fetched, ingested, duplicates, firstErr), faults, hashing, feed)
    {
      fetched', ingested', duplicates', firstErr' := fetched, ingested, duplicates, firstErr;
      FeedIs(View(), fetched, ingested, duplicates, firstErr, faults, hashing, feed);
      if feed.Dead? {
        if firstErr == NoError {
          firstErr' := FetchError(feed.name);
        }
        return;
      }
      fetched' := fetched + |feed.posts|;
      ingested', duplicates', firstErr' :=
        DiscoverPosts(feed.name, feed.posts, fetched', ingested, duplicates, firstErr);
    }

    method Run(feeds: seq<Feed>) returns (fetched: nat, ingested: nat, duplicates: nat, firstErr: FirstError)
      modifies this
      ensures Progress(View(), fetched, ingested, duplicates, firstErr) == Discover(old(View()), faults, hashing, feeds)
    {
      fetched, ingested, duplicates, firstErr := 0, 0, 0, NoError;
      ghost var start := Progress(View(), 0, 0, 0, NoError);
      for n := 0 to |feeds|
        invariant Progress(View(), fetched, ingested, duplicates, firstErr)
               == DiscoverFeeds(start, faults, hashing, feeds[..n])
      {
        assert feeds[..n + 1][..n] == feeds[..n];
        fetched, ingested, duplicates, firstErr := DiscoverSource(feeds[n], fetched, ingested, duplicates, firstErr);
      }
      assert feeds[..|feeds|] == feeds;
    }
  }
}
