/** Which claim ids lack an allowed claim (internal/resume/pipeline.go). */
module Provenance {

  datatype Claim = Claim(id: string, allowedForResume: bool)

  datatype Change = Change(description: string, claimIds: seq<string>)

  predicate IsAllowed(claims: seq<Claim>, id: string) {
    exists c | c in claims :: c.id == id && c.allowedForResume
  }

  /** The claim ids of all changes, in order, with repetitions. */
  function Flatten(changes: seq<Change>): seq<string> {
    if changes == [] then [] else Flatten(changes[..|changes| - 1]) + changes[|changes| - 1].claimIds
  }

  /** The ids without an allowed claim, in order, with repetitions. */
  function Unallowed(ids: seq<string>, claims: seq<Claim>): seq<string> {
    if ids == [] then []
    else
      var last := ids[|ids| - 1];
      Unallowed(ids[..|ids| - 1], claims) + if IsAllowed(claims, last) then [] else [last]
  }

  /** Builds the lookup set once; a later entry of the same id never removes it. */
  method AllowedSet(claims: seq<Claim>) returns (allowed: set<string>)
    ensures forall id :: id in allowed <==> IsAllowed(claims, id)
  {
    allowed := {};
    for i := 0 to |claims|
      invariant forall id :: id in allowed <==> IsAllowed(claims[..i], id)
    {
      var c := claims[i];
      if c.allowedForResume {
        allowed := allowed + {c.id};
      }
      forall id
        ensures IsAllowed(claims[..i + 1], id) <==> IsAllowed(claims[..i], id) || (id == c.id && c.allowedForResume)
      {
        AllowedAppend(claims[..i], c, id);
        assert claims[..i + 1] == claims[..i] + [c];
      }
    }
    assert claims[..|claims|] == claims;
  }

  lemma AllowedAppend(claims: seq<Claim>, c: Claim, id: string)
    ensures IsAllowed(claims + [c], id) <==> IsAllowed(claims, id) || (id == c.id && c.allowedForResume)
  {
    if id == c.id && c.allowedForResume {
      assert c in claims + [c];
    }
    if IsAllowed(claims, id) {
      var d :| d in claims && d.id == id && d.allowedForResume;
      assert d in claims + [c];
    }
  }

  method ValidateClaimProvenance(changes: seq<Change>, claims: seq<Claim>) returns (missing: seq<string>)
    ensures missing == Unallowed(Flatten(changes), claims)
  {
    var allowedSet := AllowedSet(claims);
    missing := [];
    for i := 0 to |changes|
      invariant missing == Unallowed(Flatten(changes[..i]), claims)
    {
      assert changes[..i + 1][..i] == changes[..i];
      missing := CheckChange(missing, changes[i].claimIds, allowedSet, Flatten(changes[..i]), claims);
    }
    assert changes[..|changes|] == changes;
  }

  /** The inner loop: one change's ids, after those of the changes before it. */
  method CheckChange(
      found: seq<string>, ids: seq<string>, allowedSet: set<string>,
      ghost before: seq<string>, ghost claims: seq<Claim>)
    returns (missing: seq<string>)
    requires forall id :: id in allowedSet <==> IsAllowed(claims, id)
    requires found == Unallowed(before, claims)
    ensures missing == Unallowed(before + ids, claims)
  {
    missing := found;
    assert before + ids[..0] == before;
    for j := 0 to |ids|
      invariant missing == Unallowed(before + ids[..j], claims)
    {
      if ids[j] !in allowedSet {
        missing := missing + [ids[j]];
      }
      UnallowedAppend(before + ids[..j], ids[j], claims);
      assert before + ids[..j + 1] == before + ids[..j] + [ids[j]];
    }
    assert before + ids[..|ids|] == before + ids;
  }

  lemma UnallowedAppend(ids: seq<string>, id: string, claims: seq<Claim>)
    ensures Unallowed(ids + [id], claims) == Unallowed(ids, claims) + if IsAllowed(claims, id) then [] else [id]
  {
    assert (ids + [id])[..|ids|] == ids;
  }

  /** q is s with some elements left out. */
  predicate Subsequence(q: seq<string>, s: seq<string>)
    decreases |s|
  {
    if s == [] then q == []
    else
      var front := s[..|s| - 1];
      || Subsequence(q, front)
      || (q != [] && q[|q| - 1] == s[|s| - 1] && Subsequence(q[..|q| - 1], front))
  }

  /** How often each id occurs in an order-preserving part. */
  lemma {:induction false} SubsequenceCount(q: seq<string>, s: seq<string>, id: string)
    requires Subsequence(q, s)
    ensures multiset(q)[id] <= multiset(s)[id]
    decreases |s|
  {
    if s != [] {
      var front := s[..|s| - 1];
      assert s == front + [s[|s| - 1]];
      if Subsequence(q, front) {
        SubsequenceCount(q, front, id);
      } else {
        SubsequenceCount(q[..|q| - 1], front, id);
        assert q == q[..|q| - 1] + [q[|q| - 1]];
      }
    }
  }

  /** Keeps exactly the ids without an allowed claim, each as often as it is referenced. */
  ghost predicate KeepsUnallowed(q: seq<string>, ids: seq<string>, claims: seq<Claim>) {
    forall id: string :: multiset(q)[id] == if IsAllowed(claims, id) then 0 else multiset(ids)[id]
  }

  lemma SubsequenceKeep(q: seq<string>, s: seq<string>, x: string)
    requires Subsequence(q, s)
    ensures Subsequence(q + [x], s + [x]) && Subsequence(q, s + [x])
  {
    assert (s + [x])[..|s|] == s && (q + [x])[..|q|] == q;
  }

  lemma {:induction false} UnallowedIsFilter(ids: seq<string>, claims: seq<Claim>)
    ensures Subsequence(Unallowed(ids, claims), ids) && KeepsUnallowed(Unallowed(ids, claims), ids, claims)
    decreases |ids|
  {
    if ids != [] {
      var front, last := ids[..|ids| - 1], ids[|ids| - 1];
      UnallowedIsFilter(front, claims);
      assert ids == front + [last];
      var q := Unallowed(front, claims);
      assert q + [] == q;
      UnallowedAppend(front, last, claims);
      SubsequenceKeep(q, front, last);
    }
  }

  lemma {:induction false} FilterIsUnique(q: seq<string>, ids: seq<string>, claims: seq<Claim>)
    requires Subsequence(q, ids) && KeepsUnallowed(q, ids, claims)
    ensures q == Unallowed(ids, claims)
    decreases |ids|
  {
    if ids != [] {
      var front, last := ids[..|ids| - 1], ids[|ids| - 1];
      assert ids == front + [last];
      if Subsequence(q, front) {
        SubsequenceCount(q, front, last);
        assert IsAllowed(claims, last);
        FilterIsUnique(q, front, claims);
      } else {
        var r := q[..|q| - 1];
        assert q == r + [last];
        assert multiset(q)[last] > 0;
        FilterIsUnique(r, front, claims);
      }
    }
  }

  /** The result of ValidateClaimProvenance is the one sequence that keeps the order and the
      multiplicity of exactly the ids without an allowed claim. */
  lemma ProvenanceIff(changes: seq<Change>, claims: seq<Claim>, q: seq<string>)
    ensures q == Unallowed(Flatten(changes), claims)
        <==> Subsequence(q, Flatten(changes)) && KeepsUnallowed(q, Flatten(changes), claims)
  {
    UnallowedIsFilter(Flatten(changes), claims);
    if Subsequence(q, Flatten(changes)) && KeepsUnallowed(q, Flatten(changes), claims) {
      FilterIsUnique(q, Flatten(changes), claims);
    }
  }

  lemma {:induction false} NothingMissingIff(ids: seq<string>, claims: seq<Claim>)
    ensures Unallowed(ids, claims) == [] <==> forall id | id in ids :: IsAllowed(claims, id)
    decreases |ids|
  {
    if ids != [] {
      NothingMissingIff(ids[..|ids| - 1], claims);
      assert ids == ids[..|ids| - 1] + [ids[|ids| - 1]];
    }
  }
}
