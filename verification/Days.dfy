/** Calendar days on an integer clock, and per-day caps on maps of time stamps.
    A day is a fixed interval of 86400 seconds (internal/browser/runner.go:397-400). */
module Days {

  const DAY_SECONDS := 86400

  /** Midnight at or before t; `%` is Euclidean, so this also holds for negative clocks. */
  function StartOfDay(t: int): int {
    t - t % DAY_SECONDS
  }

  function DayOf(t: int): int {
    t / DAY_SECONDS
  }

  /** How many entries are stamped at or after `since`: what CountStartedSince and
      CountDeepEvaluationsSince answer. */
  function CountSince<K(==)>(times: map<K, int>, since: int): nat {
    |set k | k in times && times[k] >= since|
  }

  ghost function CountOnDay<K>(times: map<K, int>, day: int): nat {
    |set k | k in times && DayOf(times[k]) == day|
  }

  /** Every calendar day holds at most `limit` entries, and none when the limit is negative. */
  ghost predicate Capped<K>(times: map<K, int>, limit: int) {
    forall day :: CountOnDay(times, day) <= if limit < 0 then 0 else limit
  }

  /** The check reads the clock at `check`, the entry is stamped later, at `at`, possibly on the
      other side of midnight: the cap still holds. */
  lemma CapSurvivesMidnight<K>(times: map<K, int>, key: K, check: int, at: int, limit: int)
    requires Capped(times, limit) && key !in times
    requires check <= at && CountSince(times, StartOfDay(check)) < limit
    ensures Capped(times[key := at], limit)
  {
    var after := times[key := at];
    forall day ensures CountOnDay(after, day) <= limit {
      var before := set k | k in times && DayOf(times[k]) == day;
      var now := set k | k in after && DayOf(after[k]) == day;
      if DayOf(at) != day {
        assert now == before;
        assert CountOnDay(times, day) <= limit;
      } else {
        assert now == before + {key};
        var counted := set k | k in times && times[k] >= StartOfDay(check);
        assert before <= counted;
        SubsetSize(before, counted);
      }
    }
  }

  lemma CountSinceBound<K>(times: map<K, int>, since: int)
    ensures CountSince(times, since) <= |times|
  {
    SubsetSize((set k | k in times && times[k] >= since), times.Keys);
  }

  lemma SubsetSize<K>(a: set<K>, b: set<K>)
    requires a <= b
    ensures |a| <= |b|
  {
    assert b == a + (b - a);
  }
}
