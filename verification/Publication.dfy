/**
 Preparing a social publication from a completed run (`prepare_social_publication`). The stores of media and of
 connected accounts are seen through what they return.
 */
module Publication {
  import opened Prelude
  import opened Models
  import opened Campaign
  import opened CampaignAgreement
  import opened TextSearch
  import opened Runs
  import opened Orchestrator
  import opened RunShape
  import opened RunProgress
  import opened RunStates
  import opened RunStore
  import opened Service
  import opened ServiceInvariant
  import opened ServiceHistory

  datatype Request = Request(greenlightId: string, fence: int, artifactId: string, mediaArtifactId: Option<string>)

  datatype DurableMedia = DurableMedia(
    runId: string,
    channel: string,
    revoked: bool,
    expiresAt: int,
    sha256: string,
    contentHash: string)

  datatype Outside = Outside(media: map<string, DurableMedia>, accounts: map<string, string>, now: int)

  datatype SocialCommand = SocialCommand(
    channel: string,
    account: string,
    runId: string,
    artifactId: string,
    content: string,
    mediaUrl: Option<string>,
    mediaHash: Option<string>,
    greenlightId: string,
    fence: int)

  datatype PublicationError =
    | UnknownChannel | RunMissing | NotAuthorized | Ineligible
    | NoCopy | CopyNotApproved | CopyHashMismatch | NoVariant | EmptyVariant
    | NoMedia | MediaNotApproved | MediaHashMismatch | MediaUnusable
    | ComplianceMissing | ComplianceInvalid | NoAccount

  /** A dictionary by artifact id keeps the last artifact of each id. */
  function ById(artifacts: seq<Artifact>, id: string): Option<Artifact> {
    if artifacts == [] then None
    else if artifacts[|artifacts| - 1].id == id then Some(artifacts[|artifacts| - 1])
    else ById(artifacts[..|artifacts| - 1], id)
  }

  function IndexOf(ids: seq<string>, id: string): (i: Option<nat>)
    ensures i.Some? ==> i.value < |ids| && ids[i.value] == id
  {
    if ids == [] then None
    else if ids[0] == id then Some(0)
    else
      match IndexOf(ids[1..], id)
      case None => None
      case Some(k) => Some(k + 1)
  }

  function VariantOf(variants: seq<Variant>, platform: string): Option<Variant> {
    if variants == [] then None
    else if variants[0].platform == platform then Some(variants[0])
    else VariantOf(variants[1..], platform)
  }

  function Part(w: World, text: string): seq<string> {
    if Strip(w.language.isSpace, text) == "" then [] else [Strip(w.language.isSpace, text)]
  }

  /** Hook, body and call to action, stripped, without the empty ones. */
  function Parts(w: World, v: Variant): seq<string> {
    Part(w, v.hook) + Part(w, v.body) + Part(w, v.cta)
  }

  function ContentOf(w: World, v: Variant): string {
    Join("\n\n", Parts(w, v))
  }

  /** The artifact is approved under the hash it still has. */
  predicate HashApproved(w: World, g: Greenlight, a: Artifact) {
    && |g.approvedHashes| == |g.approvedIds|
    && IndexOf(g.approvedIds, a.id).Some?
    && g.approvedHashes[IndexOf(g.approvedIds, a.id).value] == w.envelopeHash(a)
  }

  function Approval(w: World, g: Greenlight, a: Artifact, absent: PublicationError, changed: PublicationError)
    : Option<PublicationError>
  {
    if IndexOf(g.approvedIds, a.id) == None then Some(absent)
    else if !HashApproved(w, g, a) then Some(changed)
    else None
  }

  /** The approved image of an Instagram publication: its address and digest. */
  function PickMedia(w: World, x: Outside, run: Run, g: Greenlight, id: Option<string>)
    : Result<(string, string), PublicationError>
  {
    if id == None then Err(NoMedia)
    else
      match ById(run.artifacts, id.value)
      case None => Err(NoMedia)
      case Some(a) =>
        if a.kind != PublicationMedia then Err(NoMedia)
        else if Approval(w, g, a, MediaNotApproved, MediaHashMismatch).Some? then
          Err(Approval(w, g, a, MediaNotApproved, MediaHashMismatch).value)
        else if !a.payload.MediaRecord? || a.payload.channel != Instagram() then Err(MediaUnusable)
        else if a.payload.mediaId !in x.media then Err(MediaUnusable)
        else
          var m := x.media[a.payload.mediaId];
          if m.runId != run.runId || m.channel != Instagram() || m.revoked || m.expiresAt <= x.now
             || m.sha256 != a.payload.sha256 || m.contentHash != a.payload.sha256 then Err(MediaUnusable)
          else Ok((a.payload.url, a.payload.sha256))
  }

  function ComplianceObjection(w: World, run: Run, g: Greenlight): Option<PublicationError> {
    if !Political(run.brief) then None
    else
      match First(run.artifacts, ComplianceRecord)
      case None => Some(ComplianceMissing)
      case Some(a) =>
        if Approval(w, g, a, ComplianceInvalid, ComplianceInvalid).Some? then Some(ComplianceInvalid)
        else if !(a.payload.Compliance?
                  && a.payload.jurisdiction == Strip(w.language.isSpace, run.brief.jurisdiction)
                  && a.payload.mode == run.brief.publicationMode
                  && a.payload.legalReviewer == Strip(w.language.isSpace, run.brief.legalReviewedBy)
                  && a.payload.approver == g.reviewer) then Some(ComplianceInvalid)
        else None
  }

  /** The approved copy for a channel. */
  function PickCopy(w: World, run: Run, g: Greenlight, artifactId: string, channel: string)
    : Result<Variant, PublicationError>
  {
    match ById(run.artifacts, artifactId)
    case None => Err(NoCopy)
    case Some(a) =>
      if a.kind != Kind.CopyDeck then Err(NoCopy)
      else if Approval(w, g, a, CopyNotApproved, CopyHashMismatch).Some? then
        Err(Approval(w, g, a, CopyNotApproved, CopyHashMismatch).value)
      else
        match VariantOf(VariantsIn(a.payload), channel)
        case None => Err(NoVariant)
        case Some(v) => if Parts(w, v) == [] then Err(EmptyVariant) else Ok(v)
  }

  function Prepare(w: World, x: Outside, store: Store, key: Key, channel: string, r: Request)
    : Result<SocialCommand, PublicationError>
  {
    if channel != "x" && channel != Instagram() then Err(UnknownChannel)
    else if key !in store.runs then Err(RunMissing)
    else
      var run := store.runs[key];
      if run.status != Completed || run.greenlight == None || !Active(run.greenlight.value) then Err(NotAuthorized)
      else
        var g := run.greenlight.value;
        var report := First(run.artifacts, RiskReport);
        if Political(run.brief) && (report == None || !ReportEligible(report.value.payload)) then Err(Ineligible)
        else if !Authorized(store, key, Token(r.greenlightId, r.fence, g.approvedIds, g.approvedHashes, channel, 0)) then
          Err(NotAuthorized)
        else
          match PickCopy(w, run, g, r.artifactId, channel)
          case Err(e) => Err(e)
          case Ok(v) =>
            var media := if channel == Instagram() then PickMedia(w, x, run, g, r.mediaArtifactId) else Ok(("", ""));
            if media.Err? then Err(media.error)
            else if ComplianceObjection(w, run, g).Some? then Err(ComplianceObjection(w, run, g).value)
            else if channel !in x.accounts then Err(NoAccount)
            else
              var url := if channel == Instagram() then Some(media.value.0) else None;
              var hash := if channel == Instagram() then Some(media.value.1) else None;
              Ok(SocialCommand(channel, x.accounts[channel], run.runId, r.artifactId, ContentOf(w, v), url, hash,
                               r.greenlightId, r.fence))
  }

  // ---------------------------------------------------------------- what a prepared command carries

  lemma {:induction false} ByIdIsHeld(artifacts: seq<Artifact>, id: string) returns (i: nat)
    requires ById(artifacts, id).Some?
    ensures i < |artifacts| && artifacts[i] == ById(artifacts, id).value && artifacts[i].id == id
    decreases |artifacts|
  {
    i := |artifacts| - 1;
    if artifacts[i].id != id {
      i := ByIdIsHeld(artifacts[..i], id);
    }
  }

  /** A released run holds a single copy deck: the writer's. */
  lemma {:induction false} OnlyOneDeck(w: World, run: Run, i: nat)
    requires Released(w, run) && i < |run.artifacts| && run.artifacts[i].kind == Kind.CopyDeck
    ensures i == Position(Writer)
    ensures run.artifacts[i] == StationArtifact(w, run.brief, i)
    ensures i < |run.greenlight.value.approvedIds|
  {
    hide ArtifactsAt, GateOpens, StationArtifact, ComplianceArtifact;
    if i < EXECUTABLE {
      StationKind(w, run, i);
    } else {
      NotADeck(w, run, i);
    }
  }

  lemma {:induction false} NotADeck(w: World, run: Run, i: nat)
    requires Released(w, run) && EXECUTABLE <= i < |run.artifacts|
    ensures run.artifacts[i].kind != Kind.CopyDeck
  {
    hide ArtifactsAt, GateOpens, StationsDone, Strip;
  }

  lemma {:induction false} VariantIsRendered(l: Language, brief: Brief, ids: seq<string>, variants: seq<Variant>, p: string)
    requires AllRendered(l, brief, ids, variants)
    ensures VariantOf(variants, p).Some? <==> p in PlatformsOf(variants)
    ensures VariantOf(variants, p).Some? ==> VariantOf(variants, p).value == VariantFor(l, brief, ids, p)
    decreases |variants|
  {
    hide VariantFor;
    if variants != [] {
      assert AllRendered(l, brief, ids, variants[1..]) by {
        forall i | 0 <= i < |variants[1..]|
          ensures variants[1..][i] == VariantFor(l, brief, ids, variants[1..][i].platform)
        {
          assert variants[1..][i] == variants[i + 1];
        }
      }
      VariantIsRendered(l, brief, ids, variants[1..], p);
    }
  }

  /** The copy the writer made of a brief for one channel. */
  function WrittenFor(w: World, brief: Brief, channel: string): Variant {
    VariantFor(w.language, brief, SupportedIds(Ledger(w, brief)), channel)
  }

  lemma {:induction false} PickedCopy(w: World, run: Run, artifactId: string, channel: string)
    requires Released(w, run) && channel in run.brief.platforms
    ensures var g := run.greenlight.value;
            var picked := PickCopy(w, run, g, artifactId, channel);
            && (picked.Ok? ==> picked.value == WrittenFor(w, run.brief, channel))
            && (picked.Ok? ==> artifactId == StationArtifact(w, run.brief, 4).id == g.approvedIds[4])
            && (picked.Ok? ==> g.approvedHashes[4] == w.envelopeHash(StationArtifact(w, run.brief, 4)))
            && picked != Err(NoVariant)
  {
    hide ById, HashApproved, VariantFor, SupportedIds, StationArtifact, ArtifactsAt, GateOpens, Variants, Parts, Ledger;
    var found := ById(run.artifacts, artifactId);
    if found.Some? && found.value.kind == Kind.CopyDeck {
      var i := ByIdIsHeld(run.artifacts, artifactId);
      OnlyOneDeck(w, run, i);
      var g := run.greenlight.value;
      var approved := run.artifacts[..|g.approvedIds|];
      assert approved[i] == run.artifacts[i] && ArtifactIds(approved)[i] == run.artifacts[i].id;
      assert ArtifactHashes(w, approved)[i] == w.envelopeHash(run.artifacts[i]);
      var l, ids := w.language, SupportedIds(Ledger(w, run.brief));
      var variants := VariantsIn(found.value.payload);
      assert variants == Variants(l, run.brief, ids, run.brief.platforms);
      VariantsRendered(l, run.brief, ids, run.brief.platforms);
      EveryPlatformHasCopy(l, run.brief, ids, run.brief.platforms);
      VariantIsRendered(l, run.brief, ids, variants, channel);
    }
  }

  /**
   Whatever is prepared for publication from any reachable store is, for a platform of the brief, the text that
   the writer made of the brief, and the deck it comes from stands in the approved envelope with its hash.
   */
  lemma {:induction false} PublishedTextIsApproved(w: World, ids: Ids, actions: seq<Action>, x: Outside, key: Key,
                                                   channel: string, r: Request)
    requires IdsDistinct(ids)
    ensures var store := After(w, ids, Initial(), actions).store;
            var prepared := Prepare(w, x, store, key, channel, r);
            prepared.Ok? ==>
              && key in store.runs && store.runs[key].greenlight.Some?
              && var run, g := store.runs[key], store.runs[key].greenlight.value;
                 && Active(g) && g.id == r.greenlightId && g.fence == r.fence == 1
                 && channel in run.brief.platforms
                 && prepared.value.content == ContentOf(w, WrittenFor(w, run.brief, channel))
                 && |g.approvedIds| == |g.approvedHashes| && 4 < |g.approvedIds|
                 && g.approvedIds[4] == prepared.value.artifactId
                 && g.approvedHashes[4] == w.envelopeHash(StationArtifact(w, run.brief, 4))
  {
    hide StoreInv, Step, IdsDistinct, PickCopy, PickMedia, ComplianceObjection, ContentOf, GateOpens,
         Released, WrittenFor, StationArtifact, First, ReportEligible;
    Reachable(w, ids, actions);
    var st := After(w, ids, Initial(), actions);
    var prepared := Prepare(w, x, st.store, key, channel, r);
    if prepared.Ok? {
      var run := st.store.runs[key];
      RowHolds(w, ids, st, key);
      CompletedIsReleased(w, key, run);
      ReleasedFacts(w, run);
      PickedCopy(w, run, r.artifactId, channel);
    }
  }

  lemma {:induction false} CompletedIsReleased(w: World, key: Key, run: Run)
    requires RowOk(w, key, run) && run.status == Completed
    ensures Released(w, run) && run.greenlight.value.fence == 1
  {
    hide Released;
  }

  lemma {:induction false} ReleasedFacts(w: World, run: Run)
    requires Released(w, run)
    ensures var g := run.greenlight.value;
            |g.approvedIds| == |g.approvedHashes| && EXECUTABLE <= |g.approvedIds| && g.channels == run.brief.platforms
  {
    hide StationsDone, GateOpens, ComplianceArtifact, Strip;
  }

  lemma {:induction false} PickedImage(w: World, x: Outside, run: Run, id: Option<string>)
    requires Released(w, run) && PickMedia(w, x, run, run.greenlight.value, id).Ok?
    ensures var g, a := run.greenlight.value, ById(run.artifacts, id.value);
            && id.Some? && a.Some? && a.value.kind == PublicationMedia && a.value.payload.MediaRecord?
            && PickMedia(w, x, run, g, id).value == (a.value.payload.url, a.value.payload.sha256)
            && IndexOf(g.approvedIds, id.value).Some?
            && var i := IndexOf(g.approvedIds, id.value).value;
               && i < |run.artifacts| - 1 && g.approvedHashes[i] == w.envelopeHash(run.artifacts[i])
               && (a.value == run.artifacts[i]
                   || (a.value != run.artifacts[i] && w.envelopeHash(a.value) == w.envelopeHash(run.artifacts[i])))
  {
    hide ById, StationsDone, GateOpens, ComplianceArtifact, IndexOf, Strip;
    var i := ByIdIsHeld(run.artifacts, id.value);
  }

  /** The artifact whose approval the image is published under. */
  ghost predicate ApprovedImage(w: World, run: Run, id: string, url: string, sha256: string) {
    && run.greenlight.Some? && ById(run.artifacts, id).Some?
    && IndexOf(run.greenlight.value.approvedIds, id).Some?
    && IndexOf(run.greenlight.value.approvedIds, id).value < |run.artifacts|
    && var a := ById(run.artifacts, id).value;
       var approved := run.artifacts[IndexOf(run.greenlight.value.approvedIds, id).value];
       && a.kind == PublicationMedia && a.payload.MediaRecord? && a.payload.url == url && a.payload.sha256 == sha256
       && approved.id == id
       && (a == approved || (a != approved && w.envelopeHash(a) == w.envelopeHash(approved)))
  }

  /**
   An image that is prepared for publication from any reachable store is the one that was approved, or two different
   artifacts have one envelope hash.
   */
  lemma {:induction false} PublishedImageIsApproved(w: World, ids: Ids, actions: seq<Action>, x: Outside, key: Key,
                                                    r: Request)
    requires IdsDistinct(ids)
    ensures var store := After(w, ids, Initial(), actions).store;
            var prepared := Prepare(w, x, store, key, Instagram(), r);
            prepared.Ok? ==>
              && key in store.runs && r.mediaArtifactId.Some?
              && prepared.value.mediaUrl.Some? && prepared.value.mediaHash.Some?
              && ApprovedImage(w, store.runs[key], r.mediaArtifactId.value, prepared.value.mediaUrl.value,
                               prepared.value.mediaHash.value)
  {
    hide StoreInv, Step, IdsDistinct, PickCopy, PickMedia, ComplianceObjection, ContentOf, Released, First,
         ReportEligible, ApprovedImage;
    Reachable(w, ids, actions);
    var st := After(w, ids, Initial(), actions);
    var prepared := Prepare(w, x, st.store, key, Instagram(), r);
    if prepared.Ok? {
      var run := st.store.runs[key];
      RowHolds(w, ids, st, key);
      CompletedIsReleased(w, key, run);
      ImageOfReleased(w, x, run, r.mediaArtifactId);
    }
  }

  lemma {:induction false} ImageOfReleased(w: World, x: Outside, run: Run, id: Option<string>)
    requires Released(w, run)
    ensures var media := PickMedia(w, x, run, run.greenlight.value, id);
            media.Ok? ==> id.Some? && ApprovedImage(w, run, id.value, media.value.0, media.value.1)
  {
    hide StationsDone, GateOpens, Enveloped, ComplianceArtifact, Strip, ById, IndexOf, Approval;
    if PickMedia(w, x, run, run.greenlight.value, id).Ok? {
      PickedImage(w, x, run, id);
      ApprovedAt(w, run, id.value);
    }
  }

  lemma {:induction false} ApprovedAt(w: World, run: Run, id: string)
    requires Released(w, run) && IndexOf(run.greenlight.value.approvedIds, id).Some?
    ensures var i := IndexOf(run.greenlight.value.approvedIds, id).value;
            i < |run.artifacts| && run.artifacts[i].id == id
  {
    hide StationsDone, GateOpens, ComplianceArtifact, Strip;
  }

  /**
   The compliance check of a released political run passes exactly if the approved artifact that is found under the
   record's id has the record's hash. That fails only for another artifact with the same id.
   */
  lemma {:induction false} CompliancePassesIff(w: World, run: Run)
    requires Released(w, run)
    ensures var g := run.greenlight.value;
            Political(run.brief) ==>
              (ComplianceObjection(w, run, g) == None <==> HashApproved(w, g, ComplianceArtifact(w, run, g.reviewer)))
  {
    hide StationsDone, GateOpens, Enveloped, First, Strip, ComplianceArtifact, HashApproved, ComplianceObjection;
    if Political(run.brief) {
      var g := run.greenlight.value;
      ReleasedPolitical(w, run);
      RecordSays(w, run, g.reviewer);
      ObjectionIs(w, run, g, ComplianceArtifact(w, run, g.reviewer));
    }
  }

  /** The check of a record that says what it should comes down to its approval. */
  lemma {:induction false} ObjectionIs(w: World, run: Run, g: Greenlight, a: Artifact)
    requires Political(run.brief) && First(run.artifacts, ComplianceRecord) == Some(a)
    requires a.payload.Compliance?
             && a.payload.jurisdiction == Strip(w.language.isSpace, run.brief.jurisdiction)
             && a.payload.mode == run.brief.publicationMode
             && a.payload.legalReviewer == Strip(w.language.isSpace, run.brief.legalReviewedBy)
             && a.payload.approver == g.reviewer
    ensures ComplianceObjection(w, run, g) == None <==> HashApproved(w, g, a)
  {
    hide First, Strip, IndexOf;
    ApprovalIs(w, g, a, ComplianceInvalid, ComplianceInvalid);
  }

  lemma {:induction false} ApprovalIs(w: World, g: Greenlight, a: Artifact, absent: PublicationError,
                                      changed: PublicationError)
    ensures Approval(w, g, a, absent, changed) == None <==> HashApproved(w, g, a)
  {
    hide IndexOf;
  }

  lemma {:induction false} ComplianceOfReleased(w: World, run: Run)
    requires Released(w, run)
    requires forall i, j | 0 <= i < j < |run.artifacts| :: run.artifacts[i].id != run.artifacts[j].id
    ensures ComplianceObjection(w, run, run.greenlight.value) == None
  {
    hide StationsDone, GateOpens, Enveloped, Approval, First, Strip, ComplianceArtifact;
    if Political(run.brief) {
      var g := run.greenlight.value;
      ReleasedPolitical(w, run);
      RecordApproved(w, run);
      RecordSays(w, run, g.reviewer);
    }
  }

  /** The stages of the preparation that ask for eligibility and for the compliance record. */
  lemma {:induction false} PrepareObjections(w: World, x: Outside, store: Store, key: Key, channel: string, r: Request)
    ensures var prepared := Prepare(w, x, store, key, channel, r);
            prepared == Err(Ineligible) || prepared == Err(ComplianceMissing) || prepared == Err(ComplianceInvalid) ==>
              && key in store.runs && store.runs[key].status == Completed && store.runs[key].greenlight.Some?
              && var run := store.runs[key];
                 if prepared == Err(Ineligible) then
                   Political(run.brief) && (First(run.artifacts, RiskReport) == None
                                            || !ReportEligible(First(run.artifacts, RiskReport).value.payload))
                 else ComplianceObjection(w, run, run.greenlight.value).Some?
  {
    hide First, ReportEligible, ComplianceObjection, ById, VariantOf, HashApproved, Authorized, Parts;
    if key in store.runs && store.runs[key].greenlight.Some? {
      ObjectionIsItsOwn(w, store.runs[key], store.runs[key].greenlight.value);
    }
  }

  lemma {:induction false} ObjectionIsItsOwn(w: World, run: Run, g: Greenlight)
    ensures ComplianceObjection(w, run, g) != Some(Ineligible)
  {
    hide First, Approval;
  }

  lemma {:induction false} ReleasedIsEligible(w: World, run: Run)
    requires Released(w, run)
    ensures Political(run.brief) ==>
      First(run.artifacts, RiskReport).Some? && ReportEligible(First(run.artifacts, RiskReport).value.payload)
  {
    hide ArtifactsAt, Enveloped, ComplianceArtifact, Strip, Verdict, StationArtifact;
    forall j | 0 <= j < 6 ensures run.artifacts[j].kind != RiskReport {
      StationKind(w, run, j);
    }
    StationKind(w, run, 6);
    FirstFound(run.artifacts, RiskReport, 6);
    ReportAtGate(w, run.brief, run.artifacts[..EXECUTABLE]);
  }

  ghost predicate IdsOnce(artifacts: seq<Artifact>) {
    forall i, j | 0 <= i < j < |artifacts| :: artifacts[i].id != artifacts[j].id
  }

  /**
   From any reachable store, the preparation never fails for lack of eligibility, which the approval has settled,
   nor for the compliance record unless two artifacts of the run have one id.
   */
  lemma {:induction false} ComplianceAlwaysValid(w: World, ids: Ids, actions: seq<Action>, x: Outside, key: Key,
                                                 channel: string, r: Request)
    requires IdsDistinct(ids)
    ensures var store := After(w, ids, Initial(), actions).store;
            var prepared := Prepare(w, x, store, key, channel, r);
            && prepared != Err(Ineligible)
            && (key in store.runs && IdsOnce(store.runs[key].artifacts) ==>
                  prepared != Err(ComplianceMissing) && prepared != Err(ComplianceInvalid))
  {
    hide StoreInv, Step, IdsDistinct, Prepare, ComplianceObjection, Released, First, ReportEligible;
    Reachable(w, ids, actions);
    var st := After(w, ids, Initial(), actions);
    PrepareObjections(w, x, st.store, key, channel, r);
    if key in st.store.runs && st.store.runs[key].status == Completed {
      RowHolds(w, ids, st, key);
      CompletedIsReleased(w, key, st.store.runs[key]);
      ReleasedIsEligible(w, st.store.runs[key]);
      if IdsOnce(st.store.runs[key].artifacts) {
        ComplianceOfReleased(w, st.store.runs[key]);
      }
    }
  }

  lemma {:induction false} RecordSays(w: World, run: Run, approver: string)
    ensures var p := ComplianceArtifact(w, run, approver).payload;
            && p.Compliance?
            && p.jurisdiction == Strip(w.language.isSpace, run.brief.jurisdiction)
            && p.mode == run.brief.publicationMode
            && p.legalReviewer == Strip(w.language.isSpace, run.brief.legalReviewedBy)
            && p.approver == approver
  {
    hide Strip, ClaimHashes;
  }

  lemma {:induction false} RecordApproved(w: World, run: Run)
    requires Released(w, run)
    requires forall i, j | 0 <= i < j < |run.artifacts| :: run.artifacts[i].id != run.artifacts[j].id
    ensures var g := run.greenlight.value;
            Political(run.brief) ==> Approval(w, g, ComplianceArtifact(w, run, g.reviewer), ComplianceInvalid, ComplianceInvalid) == None
  {
    hide StationsDone, GateOpens, Strip, ComplianceArtifact, First, Verdict;
    if !Political(run.brief) {
      return;
    }
    var g := run.greenlight.value;
    var n := |g.approvedIds|;
    ReleasedPolitical(w, run);
    var record := ComplianceArtifact(w, run, g.reviewer);
    forall i | 0 <= i < n - 1 ensures g.approvedIds[i] != record.id {
      assert g.approvedIds[i] == run.artifacts[i].id;
    }
    IndexIs(g.approvedIds, record.id, n - 1);
  }

  lemma {:induction false} IndexIs(ids: seq<string>, id: string, i: nat)
    requires i < |ids| && ids[i] == id && forall j | 0 <= j < i :: ids[j] != id
    ensures IndexOf(ids, id) == Some(i)
    decreases |ids|
  {
    if i > 0 {
      IndexIs(ids[1..], id, i - 1);
    }
  }
}
