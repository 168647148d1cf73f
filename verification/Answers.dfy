/** Whether an answer may be given without a human (internal/application/answer.go). */
module Answers {
  import opened Provenance

  datatype Category =
    | Personal | Education | Employment | WorkAuthorization | Sponsorship | Relocation
    | Compensation | Demographic | LegalDeclaration | Experience | Preferences | Other

  datatype Confidence = High | Medium | Low

  /** Unset is the empty status of an answer that was never classified. */
  datatype AnswerStatus = Unset | Auto | NeedsReview

  datatype Reason =
    | NoReason | CategoryNeedsHuman(category: Category) | ConfidenceNotHigh | NoSupportingClaim
    | ClaimNotAllowed(id: string)

  datatype Answer = Answer(
    id: string, question: string, category: Category, text: string, claimIds: seq<string>,
    confidence: Confidence, status: AnswerStatus, reason: Reason)

  predicate AlwaysReview(c: Category) {
    c in {WorkAuthorization, Sponsorship, Relocation, Compensation, Demographic, LegalDeclaration}
  }

  /** The answer with the status and reason the policy asks for; the reason names the first id that
      lacks an allowed claim. */
  function Classified(a: Answer, claims: seq<Claim>): Answer {
    var missing := Unallowed(a.claimIds, claims);
    if AlwaysReview(a.category) then a.(status := NeedsReview, reason := CategoryNeedsHuman(a.category))
    else if a.confidence != High then a.(status := NeedsReview, reason := ConfidenceNotHigh)
    else if a.claimIds == [] then a.(status := NeedsReview, reason := NoSupportingClaim)
    else if missing != [] then a.(status := NeedsReview, reason := ClaimNotAllowed(missing[0]))
    else a.(status := Auto, reason := NoReason)
  }

  method Classify(a: Answer, claims: seq<Claim>) returns (r: Answer)
    ensures r == Classified(a, claims)
  {
    r := a;
    if AlwaysReview(a.category) {
      return a.(status := NeedsReview, reason := CategoryNeedsHuman(a.category));
    }
    if a.confidence != High {
      return a.(status := NeedsReview, reason := ConfidenceNotHigh);
    }
    if |a.claimIds| == 0 {
      return a.(status := NeedsReview, reason := NoSupportingClaim);
    }
    var allowedSet := AllowedSet(claims);
    for i := 0 to |a.claimIds|
      invariant Unallowed(a.claimIds[..i], claims) == []
    {
      assert a.claimIds[..i + 1] == a.claimIds[..i] + [a.claimIds[i]];
      UnallowedAppend(a.claimIds[..i], a.claimIds[i], claims);
      if a.claimIds[i] !in allowedSet {
        FirstMissing(a.claimIds, i + 1, claims);
        return a.(status := NeedsReview, reason := ClaimNotAllowed(a.claimIds[i]));
      }
    }
    assert a.claimIds[..|a.claimIds|] == a.claimIds;
    return a.(status := Auto, reason := NoReason);
  }

  lemma {:induction false} FirstMissing(ids: seq<string>, i: nat, claims: seq<Claim>)
    requires i <= |ids| && Unallowed(ids[..i], claims) != []
    ensures Unallowed(ids, claims) != [] && Unallowed(ids, claims)[0] == Unallowed(ids[..i], claims)[0]
    decreases |ids|
  {
    if i == |ids| {
      assert ids[..i] == ids;
    } else {
      var front := ids[..|ids| - 1];
      assert front[..i] == ids[..i];
      FirstMissing(front, i, claims);
    }
  }

  method HasUnresolvedReview(answers: seq<Answer>) returns (unresolved: bool)
    ensures unresolved <==> exists a | a in answers :: a.status == NeedsReview
  {
    for i := 0 to |answers|
      invariant forall j | 0 <= j < i :: answers[j].status != NeedsReview
    {
      if answers[i].status == NeedsReview {
        return true;
      }
    }
    return false;
  }

  predicate Supported(a: Answer, claims: seq<Claim>) {
    && !AlwaysReview(a.category) && a.confidence == High && a.claimIds != []
    && forall id | id in a.claimIds :: IsAllowed(claims, id)
  }

  /** AUTO exactly for a supported answer, REVIEW with a reason for every other one; nothing but
      status and reason changes, and classifying again changes nothing. */
  lemma AutoIff(a: Answer, claims: seq<Claim>)
    ensures var r := Classified(a, claims);
      && (r.status == Auto <==> Supported(a, claims))
      && (r.status == NeedsReview <==> !Supported(a, claims)) && (r.status == NeedsReview <==> r.reason != NoReason)
      && r.(status := a.status, reason := a.reason) == a
      && Classified(r, claims) == r
  {
    NothingMissingIff(a.claimIds, claims);
  }

  /** Classify and ValidateClaimProvenance never disagree: they apply the same filter. */
  lemma AutoIffProvenanceEmpty(a: Answer, claims: seq<Claim>, description: string)
    requires !AlwaysReview(a.category) && a.confidence == High && a.claimIds != []
    ensures var missing := Unallowed(Flatten([Change(description, a.claimIds)]), claims);
      && (Classified(a, claims).status == Auto <==> missing == [])
      && (missing != [] ==> Classified(a, claims).reason == ClaimNotAllowed(missing[0]))
  {
    var c := Change(description, a.claimIds);
    assert [c][..0] == [];
    assert Flatten([c]) == a.claimIds;
  }
}
