/**
 What the critic can still object to in copy that the writer rendered from the claim ledger: only facts about
 the brief itself and the text screens, never the way in which the copy was put together.
 */
module CampaignAgreement {
  import opened Prelude
  import opened Models
  import opened TextSearch
  import opened Campaign

  /** Lower-casing leaves the lower-case ASCII letters alone. */
  ghost predicate LowerIsSane(l: Language) {
    forall c: char | 'a' <= c <= 'z' :: l.lower(c) == [c]
  }

  // ---------------------------------------------------------------- what the writer renders

  ghost predicate AllRendered(l: Language, brief: Brief, ids: seq<string>, variants: seq<Variant>) {
    forall i | 0 <= i < |variants| :: variants[i] == VariantFor(l, brief, ids, variants[i].platform)
  }

  lemma {:induction false} PutKeepsRendered(l: Language, brief: Brief, ids: seq<string>, variants: seq<Variant>, v: Variant)
    requires AllRendered(l, brief, ids, variants) && v == VariantFor(l, brief, ids, v.platform)
    ensures Put(variants, v) != [] && AllRendered(l, brief, ids, Put(variants, v))
    decreases |variants|
  {
    hide VariantFor;
    if variants != [] && variants[0].platform != v.platform {
      assert AllRendered(l, brief, ids, variants[1..]) by {
        forall i | 0 <= i < |variants[1..]|
          ensures variants[1..][i] == VariantFor(l, brief, ids, variants[1..][i].platform)
        {
          assert variants[1..][i] == variants[i + 1];
        }
      }
      PutKeepsRendered(l, brief, ids, variants[1..], v);
    }
  }

  lemma {:induction false} VariantsRendered(l: Language, brief: Brief, ids: seq<string>, platforms: seq<string>)
    ensures AllRendered(l, brief, ids, Variants(l, brief, ids, platforms))
    ensures platforms != [] ==> Variants(l, brief, ids, platforms) != []
    decreases |platforms|
  {
    if platforms != [] {
      var n := |platforms| - 1;
      VariantsRendered(l, brief, ids, platforms[..n]);
      assert VariantFor(l, brief, ids, platforms[n]).platform == platforms[n];
      PutKeepsRendered(l, brief, ids, Variants(l, brief, ids, platforms[..n]), VariantFor(l, brief, ids, platforms[n]));
    }
  }

  function PlatformsOf(variants: seq<Variant>): set<string> {
    if variants == [] then {} else {variants[0].platform} + PlatformsOf(variants[1..])
  }

  lemma {:induction false} PutPlatforms(variants: seq<Variant>, v: Variant)
    ensures PlatformsOf(Put(variants, v)) == PlatformsOf(variants) + {v.platform}
    decreases |variants|
  {
    if variants != [] && variants[0].platform == v.platform {
      assert Put(variants, v)[1..] == variants[1..];
    } else if variants != [] {
      PutPlatforms(variants[1..], v);
      assert Put(variants, v)[1..] == Put(variants[1..], v);
    }
  }

  lemma {:induction false} IdSetSnoc(ids: seq<string>, id: string)
    ensures IdSet(ids + [id]) == IdSet(ids) + {id}
  {
    var all := ids + [id];
    assert all[|ids|] == id && forall i | 0 <= i < |ids| :: all[i] == ids[i];
  }

  /** The copy deck has a variant for every platform of the brief and for no other. */
  lemma {:induction false} EveryPlatformHasCopy(l: Language, brief: Brief, ids: seq<string>, platforms: seq<string>)
    ensures PlatformsOf(Variants(l, brief, ids, platforms)) == IdSet(platforms)
    decreases |platforms|
  {
    if platforms != [] {
      var n := |platforms| - 1;
      hide IdSet, PlatformsOf, Put;
      EveryPlatformHasCopy(l, brief, ids, platforms[..n]);
      PutPlatforms(Variants(l, brief, ids, platforms[..n]), VariantFor(l, brief, ids, platforms[n]));
      IdSetSnoc(platforms[..n], platforms[n]);
      assert platforms == platforms[..n] + [platforms[n]];
    }
  }

  lemma {:induction false} TextShown(variants: seq<Variant>, k: nat)
    requires k < |variants|
    ensures Contains(Join(" ", Texts(variants)), variants[k].hook)
    ensures Contains(Join(" ", Texts(variants)), variants[k].body)
  {
    var j := TextAt(variants, k);
    JoinContains(" ", Texts(variants), j);
    JoinContains(" ", Texts(variants), j + 1);
  }

  lemma {:induction false} TextAt(variants: seq<Variant>, k: nat) returns (j: nat)
    requires k < |variants|
    ensures j + 2 < |Texts(variants)|
    ensures Texts(variants)[j] == variants[k].hook && Texts(variants)[j + 1] == variants[k].body
    decreases |variants|
  {
    var n := |variants| - 1;
    if k == n {
      j := |Texts(variants[..n])|;
    } else {
      assert variants[..n][k] == variants[k];
      j := TextAt(variants[..n], k);
    }
  }

  // ---------------------------------------------------------------- what the critic must find there

  lemma {:induction false} BodyShowsSource(l: Language, brief: Brief, i: nat)
    requires i < |brief.claims|
    ensures Contains(Body(l, brief), Strip(l.isSpace, brief.claims[i].source))
  {
    hide Contains, Strip, Join;
    var c, lines, body := brief.claims[i], Join(" ", SourceLines(brief.claims)), Body(l, brief);
    ContainsStrip(l.isSpace, c.source);
    ContainsParts(SourceLine(c), "Fuente: ", c.source, " (" + c.locator + ").");
    JoinContains(" ", SourceLines(brief.claims), i);
    ContainsParts(body, Strip(l.isSpace, brief.candidateName) + " propone: " + Strip(l.isSpace, brief.proposal) + "\n\n",
                  lines, "\n\n" + Strip(l.isSpace, brief.disclosure));
    ContainsTransitive(body, lines, SourceLine(c));
    ContainsTransitive(body, SourceLine(c), c.source);
    ContainsTransitive(body, c.source, Strip(l.isSpace, c.source));
  }

  lemma {:induction false} BodyShowsDisclosure(l: Language, brief: Brief)
    ensures Contains(Body(l, brief), Strip(l.isSpace, brief.disclosure))
  {
    ContainsParts(Body(l, brief), Strip(l.isSpace, brief.candidateName) + " propone: " + Strip(l.isSpace, brief.proposal)
                  + "\n\n" + Join(" ", SourceLines(brief.claims)) + "\n\n", Strip(l.isSpace, brief.disclosure), "");
  }

  /** The word by which the critic recognises the office, as the hook carries it. */
  function OfficeWord(l: Language, brief: Brief): string {
    if OfficeOf(l, brief) == Mayor() then Municipality()
    else if OfficeOf(l, brief) == Deputy() then Legislative()
    else OfficeOf(l, brief)
  }

  lemma {:induction false} WordsAreLower(l: Language)
    requires LowerIsSane(l)
    ensures Lower(l.lower, Municipality()) == Municipality() && Lower(l.lower, Legislative()) == Legislative()
  {
    LowerFixes(l.lower, Municipality());
    LowerFixes(l.lower, Legislative());
  }

  lemma {:induction false} SubjectNamesMunicipality(l: Language, brief: Brief)
    requires LowerIsSane(l)
    ensures Contains(Lower(l.lower, MunicipalSubject(l, brief)), Municipality())
  {
    hide Contains, Municipality, Lower;
    var locality, subject := Strip(l.isSpace, brief.locality), MunicipalSubject(l, brief);
    if StartsWith(Lower(l.lower, locality), Municipality()) {
      var lowered := Lower(l.lower, locality);
      ContainsParts(lowered, "", Municipality(), lowered[|Municipality()|..]);
      ContainsParts(subject, "el ", locality, "");
      LowerContains(l.lower, subject, locality);
      ContainsTransitive(Lower(l.lower, subject), lowered, Municipality());
    } else {
      ContainsParts(subject, "el ", Municipality(), " de " + locality);
      LowerContains(l.lower, subject, Municipality());
      WordsAreLower(l);
    }
  }

  lemma {:induction false} HookNamesOffice(l: Language, brief: Brief)
    requires LowerIsSane(l)
    ensures Contains(Lower(l.lower, Hook(l, brief)), OfficeWord(l, brief))
  {
    hide Contains, Municipality, Legislative, Mayor, Deputy, Lower;
    var hook := Hook(l, brief);
    if OfficeOf(l, brief) == Mayor() {
      var subject := MunicipalSubject(l, brief);
      ContainsParts(hook, "¿Cómo puede ", subject, " rendir cuentas con información clara?");
      LowerContains(l.lower, hook, subject);
      SubjectNamesMunicipality(l, brief);
      ContainsTransitive(Lower(l.lower, hook), Lower(l.lower, subject), Municipality());
    } else if OfficeOf(l, brief) == Deputy() {
      ContainsParts(hook, "Una propuesta ", Legislative(),
                    " verificable para representar y fiscalizar en " + brief.locality + ".");
      LowerContains(l.lower, hook, Legislative());
      WordsAreLower(l);
    } else {
      var office := Strip(l.isSpace, brief.office);
      ContainsParts(hook, "Una propuesta verificable para ", office, " en " + brief.locality + ".");
      LowerContains(l.lower, hook, office);
    }
  }

  /** On rendered copy the three visibility checks always pass. */
  lemma {:induction false} RenderedCopyIsVisible(l: Language, brief: Brief, ids: seq<string>, variants: seq<Variant>)
    requires LowerIsSane(l) && Political(brief)
    requires variants != [] && AllRendered(l, brief, ids, variants)
    ensures SourceVisible(l, brief, Rendered(l, variants))
    ensures DisclosureVisible(l, brief, variants)
    ensures OfficeAligned(l, brief, Rendered(l, variants))
    ensures MappedIds(variants) == IdSet(ids)
  {
    hide Contains, Body, Hook, Lower, Texts, Join, Strip;
    var text := Join(" ", Texts(variants));
    TextShown(variants, 0);
    forall i | 0 <= i < |brief.claims|
      ensures Contains(Lower(l.lower, text), Lower(l.lower, Strip(l.isSpace, brief.claims[i].source)))
    {
      var source := Strip(l.isSpace, brief.claims[i].source);
      BodyShowsSource(l, brief, i);
      ContainsTransitive(text, variants[0].body, source);
      LowerContains(l.lower, text, source);
    }
    BodyShowsDisclosure(l, brief);
    LowerContains(l.lower, Body(l, brief), Strip(l.isSpace, brief.disclosure));
    HookNamesOffice(l, brief);
    LowerContains(l.lower, text, variants[0].hook);
    ContainsTransitive(Lower(l.lower, text), Lower(l.lower, variants[0].hook), OfficeWord(l, brief));
    assert forall i | 0 <= i < |variants| :: variants[i].claimMap == ids;
    assert IdSet(ids) <= MappedIds(variants) by {
      forall id | id in IdSet(ids) ensures id in MappedIds(variants) {
        var k :| 0 <= k < |ids| && ids[k] == id;
        assert variants[0].claimMap[k] == id;
      }
    }
  }

  // ---------------------------------------------------------------- counting supported claims

  ghost predicate NoRepeats(ids: seq<string>) {
    forall i, j | 0 <= i < j < |ids| :: ids[i] != ids[j]
  }

  lemma {:induction false} NoRepeatsSnoc(ids: seq<string>, id: string)
    ensures NoRepeats(ids + [id]) <==> NoRepeats(ids) && id !in IdSet(ids)
  {
    var all := ids + [id];
    assert all[|ids|] == id && forall i | 0 <= i < |ids| :: all[i] == ids[i];
    if NoRepeats(all) {
      assert forall i | 0 <= i < |ids| :: all[i] != all[|ids|];
    }
  }

  lemma {:induction false} IdSetSize(ids: seq<string>)
    ensures |IdSet(ids)| <= |ids|
    ensures |IdSet(ids)| == |ids| <==> NoRepeats(ids)
    decreases |ids|
  {
    if ids != [] {
      hide IdSet, NoRepeats;
      var n := |ids| - 1;
      assert ids == ids[..n] + [ids[n]];
      IdSetSize(ids[..n]);
      IdSetSnoc(ids[..n], ids[n]);
      NoRepeatsSnoc(ids[..n], ids[n]);
      SizeOfExtended(ids, ids[..n], ids[n]);
    }
  }

  lemma {:induction false} SizeOfExtended(ids: seq<string>, init: seq<string>, id: string)
    requires IdSet(ids) == IdSet(init) + {id}
    ensures |IdSet(ids)| == |IdSet(init)| + if id in IdSet(init) then 0 else 1
  {
    hide IdSet;
    if id in IdSet(init) {
      assert IdSet(init) + {id} == IdSet(init);
    }
  }

  function Ids(ledger: seq<LedgerEntry>): seq<string> {
    seq(|ledger|, i requires 0 <= i < |ledger| => ledger[i].claimId)
  }

  lemma {:induction false} SupportedAll(ledger: seq<LedgerEntry>)
    requires forall i | 0 <= i < |ledger| :: ledger[i].claimId != ""
    ensures |SupportedIds(ledger)| <= |ledger|
    ensures |SupportedIds(ledger)| == |ledger| <==> forall i | 0 <= i < |ledger| :: ledger[i].supported
    ensures |SupportedIds(ledger)| == |ledger| ==> SupportedIds(ledger) == Ids(ledger)
    decreases |ledger|
  {
    if ledger != [] {
      var n := |ledger| - 1;
      SupportedAll(ledger[..n]);
      assert Ids(ledger) == Ids(ledger[..n]) + [ledger[n].claimId];
      assert forall i | 0 <= i < n :: ledger[..n][i] == ledger[i];
    }
  }

  /** Every claim was verified, and no two claims got the same id. */
  ghost predicate EvidenceComplete(l: Language, brief: Brief, runId: string) {
    && (forall i | 0 <= i < |brief.claims| :: brief.claims[i].verificationStatus == "verified")
    && NoRepeats(Ids(ClaimLedger(l, brief, runId)))
  }

  lemma {:induction false} EvidenceVerifiedIff(l: Language, brief: Brief, runId: string)
    requires ValidBrief(l.isSpace, brief)
    ensures |IdSet(SupportedIds(ClaimLedger(l, brief, runId)))| == |brief.claims| <==> EvidenceComplete(l, brief, runId)
  {
    hide SupportedIds, Strip, ValidPolitical;
    var ledger := ClaimLedger(l, brief, runId);
    SupportedAll(ledger);
    IdSetSize(SupportedIds(ledger));
    forall i | 0 <= i < |ledger|
      ensures ledger[i].supported <==> brief.claims[i].verificationStatus == "verified"
    {
      assert ValidClaim(l.isSpace, brief.claims[i]);
    }
  }

  // ---------------------------------------------------------------- the agreement

  ghost predicate TextScreensPass(l: Language, ledger: seq<LedgerEntry>, variants: seq<Variant>) {
    && NoInjection(l, Rendered(l, variants), ledger)
    && !l.overclaim(Rendered(l, variants))
    && !l.unsupportedNumbers(Rendered(l, variants), ledger)
  }

  /** What has to be true of a political brief for its copy to be publishable. */
  ghost predicate Publishable(l: Language, brief: Brief, runId: string) {
    var ledger := ClaimLedger(l, brief, runId);
    && SpanishLocale(l, brief)
    && EvidenceComplete(l, brief, runId)
    && LegallyApproved(brief)
    && TextScreensPass(l, ledger, CopyDeck(l, brief, ledger))
  }

  lemma {:induction false} ChecksPassIff(l: Language, brief: Brief, ledger: seq<LedgerEntry>, variants: seq<Variant>)
    ensures AllPassed(PoliticalChecks(l, brief, ledger, variants))
      <==> var supported, rendered := IdSet(SupportedIds(ledger)), Rendered(l, variants);
           && SpanishLocale(l, brief)
           && OfficeAligned(l, brief, rendered)
           && |supported| == |brief.claims|
           && supported != {} && MappedIds(variants) == supported
           && SourceVisible(l, brief, rendered)
           && Strip(l.isSpace, brief.office) != "" && Strip(l.isSpace, brief.locality) != ""
           && DisclosureVisible(l, brief, variants)
           && LegallyApproved(brief) && Strip(l.isSpace, brief.legalReviewedBy) != ""
           && TextScreensPass(l, ledger, variants)
  {
    hide SpanishLocale, OfficeAligned, SourceVisible, DisclosureVisible, LegallyApproved, NoInjection, Strip, MappedIds,
         SupportedIds, IdSet, Rendered;
    var checks := PoliticalChecks(l, brief, ledger, variants);
    if AllPassed(checks) {
      assert checks[0].passed && checks[1].passed && checks[2].passed && checks[3].passed;
      assert checks[4].passed && checks[5].passed && checks[6].passed && checks[7].passed;
      assert checks[8].passed && checks[9].passed && checks[10].passed;
    }
  }

  /**
   The critic's verdict on the writer's copy of a political brief is a condition on the brief: Spanish locale,
   every claim verified under an id of its own, legal approval, and clean text screens.
   */
  lemma {:induction false} EligibleIff(l: Language, brief: Brief, runId: string)
    requires ValidBrief(l.isSpace, brief) && Political(brief) && LowerIsSane(l)
    ensures var ledger := ClaimLedger(l, brief, runId);
            CritiqueOf(l, brief, ledger, CopyDeck(l, brief, ledger)).eligible <==> Publishable(l, brief, runId)
  {
    hide PoliticalChecks, Strip, SupportedIds, IdSet, MappedIds, TextScreensPass, SpanishLocale, OfficeAligned,
         SourceVisible, DisclosureVisible, ClaimLedger, Variants, AllRendered, ValidClaim;
    var ledger := ClaimLedger(l, brief, runId);
    var ids := SupportedIds(ledger);
    var variants := CopyDeck(l, brief, ledger);
    VariantsRendered(l, brief, ids, brief.platforms);
    RenderedCopyIsVisible(l, brief, ids, variants);
    ChecksPassIff(l, brief, ledger, variants);
    EvidenceVerifiedIff(l, brief, runId);
  }

  /** For every valid brief: the Greenlight gate opens unless the brief is political and not publishable. */
  lemma {:induction false} GateOpensIff(l: Language, brief: Brief, runId: string)
    requires ValidBrief(l.isSpace, brief) && LowerIsSane(l)
    ensures var ledger := ClaimLedger(l, brief, runId);
            GateOpen(brief, CritiqueOf(l, brief, ledger, CopyDeck(l, brief, ledger)))
            <==> (Political(brief) ==> Publishable(l, brief, runId))
  {
    hide PoliticalChecks, ClaimLedger, CopyDeck, Publishable, ValidBrief;
    if Political(brief) {
      EligibleIff(l, brief, runId);
    }
  }
}
