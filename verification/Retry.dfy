/** Bounded retries (internal/scheduler/retry.go). */
module Retry {
  import opened Normalize
  import opened JobStore
  import opened Discovery
  import opened Wrappers

  datatype Verdict = RetryAgain | GiveUp

  datatype RunStatus = Succeeded | DeadLetter

  /** The id, task type and the text around the last error are left out. */
  datatype TaskRun = TaskRun(status: RunStatus, attempt: nat, lastError: Maybe<string>, startedAt: int, finishedAt: int)

  /** A task attempt: from the state and the attempt number to the state and an error, if any. */
  type Task<!S> = (S, nat) -> (S, Maybe<string>)

  function Decide(maxRetries: int, attemptNumber: nat): Verdict {
    if attemptNumber <= maxRetries then RetryAgain else GiveUp
  }

  function MaxAttempts(maxRetries: int): nat {
    if maxRetries > 0 then maxRetries + 1 else 1
  }

  /** The state after attempts 1..n. */
  function After<S>(fn: Task<S>, s: S, n: nat): S {
    if n == 0 then s else fn(After(fn, s, n - 1), n).0
  }

  function ErrorOf<S>(fn: Task<S>, s: S, n: nat): Maybe<string>
    requires n >= 1
  {
    fn(After(fn, s, n - 1), n).1
  }

  /** Attempt n is the first that succeeds. */
  predicate FirstSuccess<S>(fn: Task<S>, s: S, n: nat) {
    n >= 1 && ErrorOf(fn, s, n).None? && forall i | 1 <= i < n :: ErrorOf(fn, s, i).Some?
  }

  predicate AllFail<S>(fn: Task<S>, s: S, n: nat) {
    forall i | 1 <= i <= n :: ErrorOf(fn, s, i).Some?
  }

  /** What an execution may report: the first success, or all allowed attempts failed. */
  ghost predicate IsRunOf<S>(run: TaskRun, maxRetries: int, fn: Task<S>, s: S) {
    && 1 <= run.attempt <= MaxAttempts(maxRetries)
    && (run.status == Succeeded <==> FirstSuccess(fn, s, run.attempt))
    && (run.status == DeadLetter <==> run.attempt == MaxAttempts(maxRetries) && AllFail(fn, s, run.attempt))
    && run.lastError == ErrorOf(fn, s, run.attempt)
  }

  /** Runs fn, reading the clock before and after every attempt. The calls made are 1..attempt in
      order: `calls` logs them. */
  method Execute<S>(maxRetries: int, fn: Task<S>, now: nat -> int, s: S)
    returns (run: TaskRun, s': S, ghost calls: seq<nat>)
    ensures IsRunOf(run, maxRetries, fn, s)
    ensures calls == seq(run.attempt, i => i + 1) && s' == After(fn, s, run.attempt)
    ensures run.startedAt == now(2 * run.attempt - 2) && run.finishedAt == now(2 * run.attempt - 1)
  {
    var attempt := 0;
    s' := s;
    calls := [];
    while true
      invariant 0 <= attempt < MaxAttempts(maxRetries)
      invariant s' == After(fn, s, attempt) && calls == seq(attempt, i => i + 1)
      invariant AllFail(fn, s, attempt)
      decreases MaxAttempts(maxRetries) - attempt
    {
      attempt := attempt + 1;
      calls := calls + [attempt];
      var start := now(2 * attempt - 2);
      var (next, err) := fn(s', attempt);
      s' := next;
      var finish := now(2 * attempt - 1);
      if err.None? {
        run := TaskRun(Succeeded, attempt, None, start, finish);
        return;
      }
      if Decide(maxRetries, attempt) == GiveUp {
        run := TaskRun(DeadLetter, attempt, err, start, finish);
        return;
      }
    }
  }

  /** SUCCEEDED exactly when some allowed attempt succeeds; allowing more retries changes no success,
      and turns a dead letter into a success only with a later attempt. */
  lemma MoreRetries<S>(run: TaskRun, more: TaskRun, maxRetries: int, larger: int, fn: Task<S>, s: S)
    requires IsRunOf(run, maxRetries, fn, s) && IsRunOf(more, larger, fn, s) && maxRetries <= larger
    ensures run.status == Succeeded <==> exists n :: 1 <= n <= MaxAttempts(maxRetries) && ErrorOf(fn, s, n).None?
    ensures run.status == Succeeded ==> more.status == Succeeded && more.attempt == run.attempt
    ensures run.status == DeadLetter && more.status == Succeeded ==> more.attempt > MaxAttempts(maxRetries)
  {
    assert run.status == Succeeded || run.status == DeadLetter;
    assert more.status == Succeeded || more.status == DeadLetter;
  }

  // Retried discovery

  /** What the sources yield and which store calls fail at each attempt. */
  datatype Attempts = Attempts(faults: nat -> Faults, feeds: nat -> seq<Feed>)

  function ErrorText(e: FirstError): Maybe<string> {
    match e
    case NoError => None
    case FetchError(source) => Some(source)
    case IngestError(source) => Some(source)
    case SaveError(source) => Some(source)
  }

  function DiscoveryAttempt(h: Hashing, a: Attempts): Task<Store> {
    (st: Store, n: nat) =>
      var p := Discover(st, a.faults(n), h, a.feeds(n));
      (p.store, ErrorText(p.firstError))
  }

  lemma AttemptEffect(h: Hashing, st: Store, f: Faults, feeds: seq<Feed>)
    requires Sound(st)
    ensures var p := Discover(st, f, h, feeds);
      Sound(p.store) && (p.firstError == NoError ==> Hashes(h, feeds) <= p.store.byHash.Keys)
  {
    FeedsEffect(Progress(st, 0, 0, 0, NoError), f, h, feeds);
  }

  lemma {:induction false} RetriesKeepUnique(h: Hashing, a: Attempts, st: Store, n: nat)
    requires Sound(st)
    ensures Sound(After(DiscoveryAttempt(h, a), st, n))
    decreases n
  {
    if n > 0 {
      RetriesKeepUnique(h, a, st, n - 1);
      AttemptEffect(h, After(DiscoveryAttempt(h, a), st, n - 1), a.faults(n), a.feeds(n));
    }
  }

  /** Retrying discovery from an empty store never stores two NORMALIZED jobs with a shared key; and
      if an attempt succeeds, every posting of that attempt has its fingerprint stored. */
  lemma RetriedDiscovery(h: Hashing, a: Attempts, n: nat)
    requires n >= 1
    ensures var fn := DiscoveryAttempt(h, a);
            var st := After(fn, EMPTY_STORE, n);
      && NormalizedUnique(st.saved) && LinksBack(st.saved)
      && (ErrorOf(fn, EMPTY_STORE, n).None? ==> Hashes(h, a.feeds(n)) <= st.byHash.Keys)
  {
    RetriesKeepUnique(h, a, EMPTY_STORE, n - 1);
    AttemptEffect(h, After(DiscoveryAttempt(h, a), EMPTY_STORE, n - 1), a.faults(n), a.feeds(n));
  }
}
