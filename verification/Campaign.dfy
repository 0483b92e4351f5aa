/**
 The writer and the critic of a campaign (`campaign_intelligence.py`): two independent readings of one brief.
 The writer renders copy from the brief and the claim ledger, the critic judges copy against them.
 */
module Campaign {
  import opened Prelude
  import opened Models
  import opened TextSearch

  /** What the two need from elsewhere: character classes, the text screens and the digest inside claim ids. */
  datatype Language = Language(
    isSpace: char -> bool,
    lower: char -> string,
    injection: string -> bool,
    overclaim: string -> bool,
    unsupportedNumbers: (string, seq<LedgerEntry>) -> bool,
    claimDigest: (string, string, string, string) -> string)

  datatype LedgerEntry = LedgerEntry(
    claimId: string,
    statement: string,
    source: string,
    locator: string,
    verificationStatus: string,
    reviewedBy: string,
    supported: bool)

  datatype Variant = Variant(
    platform: string,
    hook: string,
    body: string,
    cta: string,
    claimMap: seq<string>,
    language: string)

  datatype CheckName =
    | SandboxOnly | HumanGreenlightRequired | PublisherNotRun | MediaNotRendered
    | LanguageConsistency | OfficeMessageAlignment | EvidenceVerified | EvidenceCoverage
    | SourceVisibility | OfficeRelevance | DisclosurePresent | LegalReviewApproved
    | InjectionAbsent | PromotionAbsent | NumericClaimAbsent | LegalReviewGatePresent

  datatype Check = Check(name: CheckName, passed: bool)

  datatype Critique = Critique(checks: seq<Check>, passed: bool, eligible: bool)

  // ---------------------------------------------------------------- the claim ledger

  function Entry(l: Language, runId: string, c: Claim): LedgerEntry {
    LedgerEntry(
      "claim-" + l.claimDigest(runId, Strip(l.isSpace, c.statement), Strip(l.isSpace, c.source),
                               Strip(l.isSpace, c.locator)),
      Strip(l.isSpace, c.statement),
      Strip(l.isSpace, c.source),
      Strip(l.isSpace, c.locator),
      c.verificationStatus,
      Strip(l.isSpace, c.reviewedBy),
      c.verificationStatus == "verified" && Strip(l.isSpace, c.reviewedBy) != "")
  }

  function ClaimLedger(l: Language, brief: Brief, runId: string): seq<LedgerEntry> {
    seq(|brief.claims|, i requires 0 <= i < |brief.claims| => Entry(l, runId, brief.claims[i]))
  }

  /** The ids of the supported entries, in ledger order. */
  function SupportedIds(ledger: seq<LedgerEntry>): seq<string> {
    if ledger == [] then []
    else SupportedIds(ledger[..|ledger| - 1])
         + if ledger[|ledger| - 1].supported && ledger[|ledger| - 1].claimId != ""
           then [ledger[|ledger| - 1].claimId] else []
  }

  function IdSet(ids: seq<string>): set<string> {
    set i | 0 <= i < |ids| :: ids[i]
  }

  // ---------------------------------------------------------------- the writer

  function Mayor(): string { "alcalde" }
  function Deputy(): string { "diputado" }
  function Municipality(): string { "municipio" }
  function Legislative(): string { "legislativa" }

  function OfficeOf(l: Language, brief: Brief): string {
    Lower(l.lower, Strip(l.isSpace, brief.office))
  }

  function MunicipalSubject(l: Language, brief: Brief): string {
    var locality := Strip(l.isSpace, brief.locality);
    if StartsWith(Lower(l.lower, locality), Municipality()) then "el " + locality
    else "el " + Municipality() + " de " + locality
  }

  function Hook(l: Language, brief: Brief): string {
    if OfficeOf(l, brief) == Mayor() then
      "¿Cómo puede " + MunicipalSubject(l, brief) + " rendir cuentas con información clara?"
    else if OfficeOf(l, brief) == Deputy() then
      "Una propuesta " + Legislative() + " verificable para representar y fiscalizar en " + brief.locality + "."
    else
      "Una propuesta verificable para " + Strip(l.isSpace, brief.office) + " en " + brief.locality + "."
  }

  function SourceLine(c: Claim): string {
    "Fuente: " + c.source + " (" + c.locator + ")."
  }

  function SourceLines(claims: seq<Claim>): seq<string> {
    seq(|claims|, i requires 0 <= i < |claims| => SourceLine(claims[i]))
  }

  function Body(l: Language, brief: Brief): string {
    Strip(l.isSpace, brief.candidateName) + " propone: " + Strip(l.isSpace, brief.proposal) + "\n\n"
    + Join(" ", SourceLines(brief.claims)) + "\n\n" + Strip(l.isSpace, brief.disclosure)
  }

  function VariantFor(l: Language, brief: Brief, ids: seq<string>, platform: string): Variant {
    if Political(brief) then
      Variant(platform, Hook(l, brief), Body(l, brief), Strip(l.isSpace, brief.desiredAction), ids, brief.locale)
    else
      Variant(platform, brief.title + ": una propuesta clara para " + brief.audience + ".", brief.objective,
              "Conoce la propuesta y participa.", ids, brief.locale)
  }

  /** Assignment to a key of an ordered dictionary: an existing key keeps its place. */
  function Put(variants: seq<Variant>, v: Variant): seq<Variant> {
    if variants == [] then [v]
    else if variants[0].platform == v.platform then [v] + variants[1..]
    else [variants[0]] + Put(variants[1..], v)
  }

  function Variants(l: Language, brief: Brief, ids: seq<string>, platforms: seq<string>): seq<Variant> {
    if platforms == [] then []
    else Put(Variants(l, brief, ids, platforms[..|platforms| - 1]),
             VariantFor(l, brief, ids, platforms[|platforms| - 1]))
  }

  function CopyDeck(l: Language, brief: Brief, ledger: seq<LedgerEntry>): seq<Variant> {
    Variants(l, brief, SupportedIds(ledger), brief.platforms)
  }

  method CopyPayload(l: Language, brief: Brief, ledger: seq<LedgerEntry>) returns (variants: seq<Variant>)
    ensures variants == CopyDeck(l, brief, ledger)
  {
    hide VariantFor, SupportedIds;
    variants := [];
    var ids := SupportedIds(ledger);
    for i := 0 to |brief.platforms|
      invariant variants == Variants(l, brief, ids, brief.platforms[..i])
    {
      assert brief.platforms[..i + 1][..i] == brief.platforms[..i];
      variants := Put(variants, VariantFor(l, brief, ids, brief.platforms[i]));
    }
    assert brief.platforms[..|brief.platforms|] == brief.platforms;
  }

  // ---------------------------------------------------------------- the critic

  function Texts(variants: seq<Variant>): seq<string> {
    if variants == [] then []
    else Texts(variants[..|variants| - 1])
         + [variants[|variants| - 1].hook, variants[|variants| - 1].body, variants[|variants| - 1].cta]
  }

  function Rendered(l: Language, variants: seq<Variant>): string {
    Lower(l.lower, Join(" ", Texts(variants)))
  }

  predicate SourceVisible(l: Language, brief: Brief, rendered: string) {
    forall i | 0 <= i < |brief.claims| :: Contains(rendered, Lower(l.lower, Strip(l.isSpace, brief.claims[i].source)))
  }

  predicate DisclosureVisible(l: Language, brief: Brief, variants: seq<Variant>) {
    forall i | 0 <= i < |variants| ::
      Contains(Lower(l.lower, variants[i].body), Lower(l.lower, Strip(l.isSpace, brief.disclosure)))
  }

  predicate OfficeAligned(l: Language, brief: Brief, rendered: string) {
    if OfficeOf(l, brief) == Mayor() then Contains(rendered, Municipality()) || Contains(rendered, "municipal")
    else if OfficeOf(l, brief) == Deputy() then
      || Contains(rendered, Legislative()) || Contains(rendered, "legislativo") || Contains(rendered, "congreso")
      || Contains(rendered, "fiscalizar") || Contains(rendered, "fiscalización")
    else Contains(rendered, OfficeOf(l, brief))
  }

  function MappedIds(variants: seq<Variant>): set<string> {
    set i, k | 0 <= i < |variants| && 0 <= k < |variants[i].claimMap| :: variants[i].claimMap[k]
  }

  predicate NoInjection(l: Language, rendered: string, ledger: seq<LedgerEntry>) {
    && !l.injection(rendered)
    && forall i | 0 <= i < |ledger| ::
         !l.injection(ledger[i].statement) && !l.injection(ledger[i].source) && !l.injection(ledger[i].locator)
  }

  predicate SpanishLocale(l: Language, brief: Brief) {
    StartsWith(Lower(l.lower, brief.locale), "es")
  }

  function PoliticalChecks(l: Language, brief: Brief, ledger: seq<LedgerEntry>, variants: seq<Variant>): seq<Check> {
    var supported, rendered := IdSet(SupportedIds(ledger)), Rendered(l, variants);
    [ Check(LanguageConsistency, SpanishLocale(l, brief)),
      Check(OfficeMessageAlignment, OfficeAligned(l, brief, rendered)),
      Check(EvidenceVerified, |supported| == |brief.claims|),
      Check(EvidenceCoverage, supported != {} && MappedIds(variants) == supported),
      Check(SourceVisibility, SourceVisible(l, brief, rendered)),
      Check(OfficeRelevance, Strip(l.isSpace, brief.office) != "" && Strip(l.isSpace, brief.locality) != ""),
      Check(DisclosurePresent, DisclosureVisible(l, brief, variants)),
      Check(LegalReviewApproved, LegallyApproved(brief) && Strip(l.isSpace, brief.legalReviewedBy) != ""),
      Check(InjectionAbsent, NoInjection(l, rendered, ledger)),
      Check(PromotionAbsent, !l.overclaim(rendered)),
      Check(NumericClaimAbsent, !l.unsupportedNumbers(rendered, ledger)),
      Check(LegalReviewGatePresent, true) ]
  }

  function StandingChecks(): seq<Check> {
    [ Check(SandboxOnly, true), Check(HumanGreenlightRequired, true),
      Check(PublisherNotRun, true), Check(MediaNotRendered, true) ]
  }

  predicate AllPassed(checks: seq<Check>) {
    forall i | 0 <= i < |checks| :: checks[i].passed
  }

  function CritiqueOf(l: Language, brief: Brief, ledger: seq<LedgerEntry>, variants: seq<Variant>): Critique {
    var extra := if Political(brief) then PoliticalChecks(l, brief, ledger, variants) else [];
    Critique(StandingChecks() + extra, AllPassed(StandingChecks() + extra), AllPassed(extra))
  }

  function Names(checks: seq<Check>): seq<CheckName> {
    seq(|checks|, i requires 0 <= i < |checks| => checks[i].name)
  }

  function StandingNames(): seq<CheckName> {
    [SandboxOnly, HumanGreenlightRequired, PublisherNotRun, MediaNotRendered]
  }

  function PoliticalNames(): seq<CheckName> {
    [LanguageConsistency, OfficeMessageAlignment, EvidenceVerified, EvidenceCoverage, SourceVisibility, OfficeRelevance,
     DisclosurePresent, LegalReviewApproved, InjectionAbsent, PromotionAbsent, NumericClaimAbsent,
     LegalReviewGatePresent]
  }

  lemma {:induction false} PoliticalReport(l: Language, brief: Brief, ledger: seq<LedgerEntry>, variants: seq<Variant>)
    ensures Names(PoliticalChecks(l, brief, ledger, variants)) == PoliticalNames()
  {
    hide SpanishLocale, OfficeAligned, SourceVisible, DisclosureVisible, NoInjection, Strip, MappedIds, SupportedIds,
         IdSet, Rendered, LegallyApproved;
  }

  lemma {:induction false} NamesConcat(a: seq<Check>, b: seq<Check>)
    ensures Names(a + b) == Names(a) + Names(b)
  {
  }

  /**
   The report names the same checks in the same order whatever the copy is. The standing ones never fail, so the
   verdict and the eligibility for publication always agree.
   */
  lemma {:induction false} CritiqueReport(l: Language, brief: Brief, ledger: seq<LedgerEntry>, variants: seq<Variant>)
    ensures var c := CritiqueOf(l, brief, ledger, variants);
            && Names(c.checks) == StandingNames() + (if Political(brief) then PoliticalNames() else [])
            && (c.passed <==> c.eligible)
            && (c.eligible <==> forall i | |StandingNames()| <= i < |c.checks| :: c.checks[i].passed)
  {
    hide PoliticalChecks;
    var extra := if Political(brief) then PoliticalChecks(l, brief, ledger, variants) else [];
    PoliticalReport(l, brief, ledger, variants);
    NamesConcat(StandingChecks(), extra);
    var all, n := StandingChecks() + extra, |StandingChecks()|;
    assert Names([]) == [] && Names(StandingChecks()) == StandingNames();
    forall i | 0 <= i < |extra| ensures all[n + i] == extra[i] {}
    forall i | n <= i < |all| ensures all[i] == extra[i - n] {}
  }

  method CritiquePayload(l: Language, brief: Brief, ledger: seq<LedgerEntry>, variants: seq<Variant>)
    returns (critique: Critique)
    ensures critique == CritiqueOf(l, brief, ledger, variants)
    ensures Names(critique.checks) == StandingNames() + if Political(brief) then PoliticalNames() else []
    ensures critique.passed <==> critique.eligible
    ensures critique.eligible <==> forall i | |StandingNames()| <= i < |critique.checks| :: critique.checks[i].passed
  {
    hide PoliticalChecks;
    var checks := StandingChecks();
    var eligible := true;
    if Political(brief) {
      var political := PoliticalChecks(l, brief, ledger, variants);
      checks := checks + political;
      eligible := AllPassed(political);
    }
    critique := Critique(checks, AllPassed(checks), eligible);
    CritiqueReport(l, brief, ledger, variants);
  }

  /** The gate in front of a Greenlight, as `_await_greenlight` and `_decide` read it from a report. */
  predicate GateOpen(brief: Brief, critique: Critique) {
    critique.passed && (Political(brief) ==> critique.eligible)
  }
}
