/** The campaign brief and the values derived from it (`models.py`, `MissionBrief`). */
module Models {
  import opened Prelude

  datatype Claim = Claim(
    statement: string,
    source: string,
    locator: string,
    verificationStatus: string,
    reviewedBy: string)

  datatype Brief = Brief(
    title: string,
    objective: string,
    audience: string,
    platforms: seq<string>,
    budgetCents: int,
    campaignType: string,
    publicationMode: string,
    locale: string,
    jurisdiction: string,
    office: string,
    candidateName: string,
    locality: string,
    problem: string,
    proposal: string,
    desiredAction: string,
    disclosure: string,
    legalReviewStatus: string,
    legalReviewedBy: string,
    claims: seq<Claim>)

  predicate Political(brief: Brief) {
    brief.campaignType == "political"
  }

  predicate LegallyApproved(brief: Brief) {
    brief.legalReviewStatus == "approved"
  }

  predicate ValidClaim(isSpace: char -> bool, claim: Claim) {
    && Strip(isSpace, claim.statement) != ""
    && Strip(isSpace, claim.source) != ""
    && Strip(isSpace, claim.locator) != ""
    && (claim.verificationStatus == "unverified" || claim.verificationStatus == "verified")
    && (claim.verificationStatus == "verified" ==> Strip(isSpace, claim.reviewedBy) != "")
  }

  /** What the constructor of a brief accepts. */
  predicate ValidBrief(isSpace: char -> bool, brief: Brief) {
    && Strip(isSpace, brief.title) != ""
    && Strip(isSpace, brief.objective) != ""
    && Strip(isSpace, brief.audience) != ""
    && brief.platforms != []
    && brief.budgetCents >= 0
    && (brief.campaignType == "commercial" || brief.campaignType == "political")
    && (brief.publicationMode == "organic" || brief.publicationMode == "paid")
    && Strip(isSpace, brief.locale) != ""
    && (brief.legalReviewStatus == "pending" || brief.legalReviewStatus == "approved")
    && (brief.legalReviewStatus == "approved" ==> Strip(isSpace, brief.legalReviewedBy) != "")
    && (forall i | 0 <= i < |brief.claims| :: ValidClaim(isSpace, brief.claims[i]))
    && (Political(brief) ==> ValidPolitical(isSpace, brief))
  }

  predicate ValidPolitical(isSpace: char -> bool, brief: Brief) {
    && Strip(isSpace, brief.jurisdiction) != ""
    && Strip(isSpace, brief.office) != ""
    && Strip(isSpace, brief.candidateName) != ""
    && Strip(isSpace, brief.locality) != ""
    && Strip(isSpace, brief.problem) != ""
    && Strip(isSpace, brief.proposal) != ""
    && Strip(isSpace, brief.desiredAction) != ""
    && Strip(isSpace, brief.disclosure) != ""
    && brief.claims != []
  }
}
