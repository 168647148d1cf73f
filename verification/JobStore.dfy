/** The job store, and what looking up, ingesting and discovering do to it
    (internal/job/dedup.go, internal/job/normalize.go, internal/scheduler/discovery.go). */
module JobStore {
  import opened Normalize
  import opened Wrappers

  datatype Status = Normalized | Duplicate

  /** Id 0 and duplicateOf 0 stand for the empty string. */
  datatype Job = Job(
    id: nat, source: string, sourceJobId: string, url: string,
    company: string, title: string, location: string, description: string,
    rawData: map<string, string>, normalizedHash: string, duplicateOf: nat, status: Status)

  /** Saved jobs in order, the latest job of each (source, source id) and of each fingerprint, and
      how many store calls were made: call k fails iff the fault function says so. */
  datatype Store = Store(
    saved: seq<Job>,
    bySource: map<(string, string), Job>,
    byHash: map<string, Job>,
    calls: nat)

  type Faults = nat -> bool

  const EMPTY_STORE := Store([], map[], map[], 0)

  // Normalising one posting

  function BaseData(raw: RawJob): map<string, string> {
    map["url" := raw.url, "company" := raw.company, "title" := raw.title,
        "location" := raw.location, "description" := raw.description]
  }

  function NormalizeJob(h: Hashing, source: string, raw: RawJob): Job {
    Job(0, source, raw.sourceJobId, raw.url,
        NormalizeText(raw.company), NormalizeText(raw.title), NormalizeText(raw.location), raw.description,
        BaseData(raw) + raw.fields, FingerprintOf(h, source, raw), 0, Normalized)
  }

  /** The raw data keep every input verbatim exactly when no extra field reuses one of the five
      names with another value; extra fields are always kept. */
  lemma RawDataKeptIff(h: Hashing, source: string, raw: RawJob)
    ensures var data := NormalizeJob(h, source, raw).rawData;
      && (forall k | k in raw.fields :: k in data && data[k] == raw.fields[k])
      && ((forall k | k in BaseData(raw) :: k in data && data[k] == BaseData(raw)[k])
          <==> forall k | k in BaseData(raw) && k in raw.fields :: raw.fields[k] == BaseData(raw)[k])
  {
    var data := NormalizeJob(h, source, raw).rawData;
    assert forall k | k in BaseData(raw) && k in raw.fields :: data[k] == raw.fields[k];
  }

  // The store

  function Put(st: Store, j: Job): Store {
    var kept := if j.id == 0 then j.(id := |st.saved| + 1) else j;
    st.(saved := st.saved + [kept],
    bySource := if kept.sourceJobId != "" then st.bySource[(kept.source, kept.sourceJobId) := kept] else st.bySource,
    byHash := st.byHash[kept.normalizedHash := kept])
  }

  function Called(st: Store): Store {
    st.(calls := st.calls + 1)
  }

  /** The answer of a lookup or of Deduplicate. */
  datatype Lookup = Failed | NoMatch | Match(job: Job)

  function FindBySource(st: Store, f: Faults, source: string, id: string): Lookup {
    if f(st.calls) then Failed
    else if (source, id) in st.bySource then Match(st.bySource[(source, id)]) else NoMatch
  }

  function FindByHash(st: Store, f: Faults, hash: string): Lookup {
    if f(st.calls) then Failed else if hash in st.byHash then Match(st.byHash[hash]) else NoMatch
  }

  /** Source identity first, the fingerprint only if that finds nothing. */
  function Deduplicate(st: Store, f: Faults, j: Job): (Store, Lookup) {
    if j.sourceJobId == "" then (Called(st), FindByHash(st, f, j.normalizedHash))
    else
      var bySource := FindBySource(st, f, j.source, j.sourceJobId);
      if bySource != NoMatch then (Called(st), bySource)
      else (Called(Called(st)), FindByHash(Called(st), f, j.normalizedHash))
  }

  function Ingest(st: Store, f: Faults, h: Hashing, source: string, raw: RawJob): (Store, Maybe<Job>) {
    IngestJob(st, f, NormalizeJob(h, source, raw))
  }

  function IngestJob(st: Store, f: Faults, j: Job): (Store, Maybe<Job>) {
    var (st1, found) := Deduplicate(st, f, j);
    (st1, Labelled(j, found))
  }

  function Labelled(j: Job, found: Lookup): Maybe<Job> {
    match found
    case Failed => None
    case NoMatch => Some(j)
    case Match(existing) => Some(j.(status := Duplicate, duplicateOf := existing.id))
  }

  // Discovery

  datatype FirstError = NoError | FetchError(source: string) | IngestError(source: string) | SaveError(source: string)

  function Keep(first: FirstError, next: FirstError): FirstError {
    if first == NoError then next else first
  }

  /** A store and the counts of the run so far. */
  datatype Progress = Progress(
    store: Store, fetched: nat, ingested: nat, duplicates: nat, firstError: FirstError)

  /** What a source yields: its name, and its postings unless the fetch fails. */
  datatype Feed = Dead(name: string) | Feed(name: string, posts: seq<RawJob>)

  function DiscoverOne(p: Progress, f: Faults, h: Hashing, source: string, raw: RawJob): Progress {
    DiscoverJob(p, f, source, NormalizeJob(h, source, raw))
  }

  function DiscoverJob(p: Progress, f: Faults, source: string, j: Job): Progress {
    var (st, found) := IngestJob(p.store, f, j);
    if found.None? then p.(store := st, firstError := Keep(p.firstError, IngestError(source)))
    else SaveFound(p.(store := st), f, source, found.value)
  }

  /** Duplicates are counted before the save, ingested jobs after it. */
  function SaveFound(p: Progress, f: Faults, source: string, j: Job): Progress {
    var duplicates := p.duplicates + if j.status == Duplicate then 1 else 0;
    if f(p.store.calls)
    then p.(store := Called(p.store), duplicates := duplicates, firstError := Keep(p.firstError, SaveError(source)))
    else p.(store := Put(Called(p.store), j), duplicates := duplicates, ingested := p.ingested + 1)
  }

  function DiscoverAll(p: Progress, f: Faults, h: Hashing, source: string, raws: seq<RawJob>): Progress {
    if raws == [] then p
    else DiscoverOne(DiscoverAll(p, f, h, source, raws[..|raws| - 1]), f, h, source, raws[|raws| - 1])
  }

  function DiscoverFeed(p: Progress, f: Faults, h: Hashing, feed: Feed): Progress {
    match feed
    case Dead(name) => p.(firstError := Keep(p.firstError, FetchError(name)))
    case Feed(name, posts) => DiscoverAll(p.(fetched := p.fetched + |posts|), f, h, name, posts)
  }

  lemma FeedIs(
      st: Store, fetched: nat, ingested: nat, duplicates: nat, e: FirstError, f: Faults, h: Hashing, feed: Feed)
    ensures DiscoverFeed(Progress(st, fetched, ingested, duplicates, e), f, h, feed) ==
      match feed
      case Dead(name) => Progress(st, fetched, ingested, duplicates, Keep(e, FetchError(name)))
      case Feed(name, posts) =>
        DiscoverAll(Progress(st, fetched + |posts|, ingested, duplicates, e), f, h, name, posts)
  {
  }

  lemma LiveFeed(p: Progress, f: Faults, h: Hashing, feed: Feed)
    requires feed.Feed?
    ensures DiscoverFeed(p, f, h, feed)
         == DiscoverAll(p.(fetched := p.fetched + |feed.posts|), f, h, feed.name, feed.posts)
  {
  }

  function DiscoverFeeds(p: Progress, f: Faults, h: Hashing, feeds: seq<Feed>): Progress {
    if feeds == [] then p
    else DiscoverFeed(DiscoverFeeds(p, f, h, feeds[..|feeds| - 1]), f, h, feeds[|feeds| - 1])
  }

  /** One run of the discovery task. */
  function Discover(st: Store, f: Faults, h: Hashing, feeds: seq<Feed>): Progress {
    DiscoverFeeds(Progress(st, 0, 0, 0, NoError), f, h, feeds)
  }

  /** Runs one after another on the same store. */
  function DiscoverRuns(st: Store, f: Faults, h: Hashing, runs: seq<seq<Feed>>): Store {
    if runs == [] then st
    else Discover(DiscoverRuns(st, f, h, runs[..|runs| - 1]), f, h, runs[|runs| - 1]).store
  }
}
