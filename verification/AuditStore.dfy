/**
 The audit tables of the SQLite run store (`persistence.py`): append, verification of one tenant, and the
 backfill that runs when the store is opened.
 */
module AuditStore {
  import opened Prelude
  import opened AuditIntegrity

  datatype AuditError =
    | InvalidTenant
    | InvalidPreviousHash
    | DuplicateEventId
    | BrokenLink
    | BrokenEvent
    | HeadWithoutEvents
    | HeadMismatch
    | InvalidCheckpoint
    | InvalidRange

  datatype Checkpoint = Checkpoint(tenantId: string, eventCount: nat, headEventId: string, headHash: string)

  /** `audit_event_hash` refuses a previous hash that is not a digest. */
  function EventHash(h: Hash, content: Content, previousHash: string): Result<Sha256, AuditError> {
    if IsSha256(previousHash) then Ok(h(Document(content, previousHash))) else Err(InvalidPreviousHash)
  }

  // ---------------------------------------------------------------- append

  function PreviousHash(ledger: Ledger, tenantId: string): string {
    if tenantId in ledger.heads then ledger.heads[tenantId].headHash else GenesisHash()
  }

  function PreviousCount(ledger: Ledger, tenantId: string): int {
    if tenantId in ledger.heads then ledger.heads[tenantId].eventCount else 0
  }

  predicate HasEvent(ledger: Ledger, eventId: string) {
    exists k | 0 <= k < |ledger.events| :: ledger.events[k].content.eventId == eventId
  }

  function Append(h: Hash, ledger: Ledger, sequence: nat, content: Content): Result<Ledger, AuditError> {
    if !IsSha256(PreviousHash(ledger, content.tenantId)) then Err(InvalidPreviousHash)
    else if HasEvent(ledger, content.eventId) then Err(DuplicateEventId)
    else Ok(Extended(ledger, sequence, content, PreviousHash(ledger, content.tenantId),
                     h(Document(content, PreviousHash(ledger, content.tenantId)))))
  }

  function Extended(ledger: Ledger, sequence: nat, content: Content, previousHash: string,
                    eventHash: string): Ledger
  {
    Ledger(ledger.events + [Row(sequence, content, previousHash, eventHash)],
           ledger.heads[content.tenantId := Head(PreviousCount(ledger, content.tenantId) + 1, content.eventId,
                                                 eventHash)])
  }

  ghost predicate AllValid(h: Hash, ledger: Ledger) {
    forall t :: ChainValid(h, ledger, t)
  }

  /** A verifying chain's head stores what the next event has to be chained to. */
  lemma {:induction false} PreviousIsDigest(h: Hash, ledger: Ledger, t: string)
    requires ChainValid(h, ledger, t)
    ensures PreviousHash(ledger, t) == Digest(h, TenantRows(ledger.events, t))
    ensures PreviousCount(ledger, t) == |TenantRows(ledger.events, t)|
  {
  }

  lemma {:induction false} ExtendedKeepsChain(h: Hash, ledger: Ledger, sequence: nat, content: Content, u: string)
    requires ChainValid(h, ledger, u)
    ensures var previous := PreviousHash(ledger, content.tenantId);
            var after := Extended(ledger, sequence, content, previous, h(Document(content, previous)));
            && ChainValid(h, after, u)
            && TenantRows(ledger.events, u) <= TenantRows(after.events, u)
            && (u == content.tenantId ==> PreviousCount(ledger, u) == |TenantRows(ledger.events, u)|)
  {
    hide TenantRows, Digest, Linked;
    var before := TenantRows(ledger.events, u);
    var previous := PreviousHash(ledger, content.tenantId);
    var row := Row(sequence, content, previous, h(Document(content, previous)));
    TenantRowsSnoc(ledger.events, row, u);
    if u == content.tenantId {
      PreviousIsDigest(h, ledger, u);
      DigestSnoc(h, before, row);
      LinkedSnoc(h, before, row);
    } else {
      assert before + [] == before;
    }
  }

  /** An append extends its tenant's chain and leaves every other tenant alone; all of them still verify. */
  lemma {:induction false} AppendKeepsChains(h: Hash, ledger: Ledger, sequence: nat, content: Content)
    requires AllValid(h, ledger)
    ensures var r := Append(h, ledger, sequence, content);
            && (r.Ok? <==> !HasEvent(ledger, content.eventId))
            && (r.Ok? ==>
                  && AllValid(h, r.value)
                  && r.value.heads[content.tenantId].eventCount
                     == |TenantRows(ledger.events, content.tenantId)| + 1
                  && forall t :: TenantRows(ledger.events, t) <= TenantRows(r.value.events, t))
  {
    assert ChainValid(h, ledger, content.tenantId);
    var r := Append(h, ledger, sequence, content);
    assert IsSha256(PreviousHash(ledger, content.tenantId));
    if r.Ok? {
      forall u
        ensures ChainValid(h, r.value, u) && TenantRows(ledger.events, u) <= TenantRows(r.value.events, u)
      {
        assert ChainValid(h, ledger, u);
        ExtendedKeepsChain(h, ledger, sequence, content, u);
      }
      ExtendedKeepsChain(h, ledger, sequence, content, content.tenantId);
    }
  }

  /** Any history of appends for any mix of tenants; a refused append changes nothing. */
  function Appended(h: Hash, ledger: Ledger, contents: seq<Content>): Ledger {
    if contents == [] then ledger
    else AppendOrKeep(h, Appended(h, ledger, contents[..|contents| - 1]), |contents|, contents[|contents| - 1])
  }

  function AppendOrKeep(h: Hash, ledger: Ledger, sequence: nat, content: Content): Ledger {
    match Append(h, ledger, sequence, content)
    case Ok(after) => after
    case Err(_) => ledger
  }

  lemma {:induction false} AppendedKeepsChains(h: Hash, ledger: Ledger, contents: seq<Content>)
    requires AllValid(h, ledger)
    ensures AllValid(h, Appended(h, ledger, contents))
    ensures forall t :: TenantRows(ledger.events, t) <= TenantRows(Appended(h, ledger, contents).events, t)
    decreases |contents|
  {
    if contents != [] {
      var n := |contents| - 1;
      AppendedKeepsChains(h, ledger, contents[..n]);
      AppendKeepsChains(h, Appended(h, ledger, contents[..n]), |contents|, contents[n]);
    }
  }

  /** What verification reports for a tenant. */
  function CheckpointOf(h: Hash, ledger: Ledger, tenantId: string): Checkpoint {
    CheckpointOfRows(h, TenantRows(ledger.events, tenantId), tenantId)
  }

  function CheckpointOfRows(h: Hash, rows: seq<Row>, tenantId: string): Checkpoint {
    Checkpoint(tenantId, |rows|, if rows == [] then "" else rows[|rows| - 1].content.eventId, Digest(h, rows))
  }

  /** A checkpoint taken earlier still describes a prefix of the ledger, however much was appended since. */
  lemma {:induction false} CheckpointDescribesPrefix(h: Hash, earlier: Ledger, contents: seq<Content>, tenantId: string)
    requires AllValid(h, earlier)
    ensures var later := Appended(h, earlier, contents);
            var c, rows := CheckpointOf(h, earlier, tenantId), TenantRows(later.events, tenantId);
            && ChainValid(h, later, tenantId)
            && c.eventCount <= |rows|
            && c.headHash == Digest(h, rows[..c.eventCount])
            && (c.eventCount > 0 ==> rows[c.eventCount - 1].eventHash == c.headHash
                                     && rows[c.eventCount - 1].content.eventId == c.headEventId)
  {
    hide TenantRows, Linked;
    AppendedKeepsChains(h, earlier, contents);
    var before, rows := TenantRows(earlier.events, tenantId),
                        TenantRows(Appended(h, earlier, contents).events, tenantId);
    assert before <= rows && rows[..|before|] == before;
    assert ChainValid(h, earlier, tenantId);
    if before != [] {
      LinkedDigest(h, before);
      assert rows[|before| - 1] == before[|before| - 1];
    }
  }

  // ---------------------------------------------------------------- backfill

  predicate Unhashed(row: Row) {
    row.previousHash == "" && row.eventHash == ""
  }

  function FilledRow(h: Hash, before: seq<Row>, row: Row): Row {
    row.(previousHash := Digest(h, before), eventHash := Digest(h, before + [row]))
  }

  /** The chain hash only depends on contents, so a stored row may be filled from unfilled predecessors. */
  ghost predicate Backfillable(h: Hash, ledger: Ledger) {
    && (forall k | 0 <= k < |ledger.events| :: Unhashed(ledger.events[k]) || FitsAt(h, ledger.events, k))
    && (forall t | t in ledger.heads :: HeadFits(h, ledger.events, t, ledger.heads[t]))
  }

  predicate SameContent(a: Row, b: Row) {
    a.sequence == b.sequence && a.content == b.content
  }

  ghost predicate SameContents(a: seq<Row>, b: seq<Row>) {
    |a| == |b| && forall k | 0 <= k < |a| :: SameContent(a[k], b[k])
  }

  lemma {:induction false} DigestOfContents(h: Hash, a: seq<Row>, b: seq<Row>)
    requires SameContents(a, b)
    ensures Digest(h, a) == Digest(h, b)
    decreases |a|
  {
    if a != [] {
      DigestOfContents(h, a[..|a| - 1], b[..|b| - 1]);
    }
  }

  lemma {:induction false} TenantRowsOfContents(a: seq<Row>, b: seq<Row>, tenantId: string)
    requires SameContents(a, b)
    ensures SameContents(TenantRows(a, tenantId), TenantRows(b, tenantId))
    decreases |a|
  {
    if a != [] {
      var n := |a| - 1;
      TenantRowsOfContents(a[..n], b[..n], tenantId);
      assert SameContent(a[n], b[n]);
    }
  }

  /** What a successful backfill leaves: only blank hashes and missing heads were written. */
  ghost predicate Filled(h: Hash, before: Ledger, after: Ledger) {
    && SameContents(before.events, after.events)
    && (forall k | 0 <= k < |before.events| :: Unhashed(before.events[k]) || after.events[k] == before.events[k])
    && (forall t | t in before.heads :: t in after.heads && after.heads[t] == before.heads[t])
    && AllValid(h, after)
  }

  /** A ledger that verifies is accepted by the backfill, and then left exactly as it is. */
  lemma {:induction false} BackfillOfValidChangesNothing(h: Hash, before: Ledger, after: Ledger)
    requires AllValid(h, before)
    ensures Backfillable(h, before)
    ensures Filled(h, before, after) ==> after == before
  {
    hide TenantRows, Digest, Linked;
    ValidRowsFit(h, before);
    ValidHeadsFit(h, before);
    if Filled(h, before, after) {
      forall k | 0 <= k < |before.events| ensures after.events[k] == before.events[k] {
        assert !Unhashed(before.events[k]);
      }
      ValidHeadsFit(h, after);
      assert forall k | 0 <= k < |before.events| :: after.events[k] == before.events[k];
      assert after.events == before.events;
      assert after.heads == before.heads;
    }
  }

  lemma {:induction false} ValidHeadsFit(h: Hash, ledger: Ledger)
    requires AllValid(h, ledger)
    ensures forall t :: t in ledger.heads <==> TenantRows(ledger.events, t) != []
    ensures forall t | t in ledger.heads :: HeadFits(h, ledger.events, t, ledger.heads[t])
  {
    forall t
      ensures t in ledger.heads <==> TenantRows(ledger.events, t) != []
      ensures t in ledger.heads ==> HeadFits(h, ledger.events, t, ledger.heads[t])
    {
      assert ChainValid(h, ledger, t);
    }
  }

  lemma {:induction false} ValidRowsFit(h: Hash, ledger: Ledger)
    requires AllValid(h, ledger)
    ensures forall k | 0 <= k < |ledger.events| :: FitsAt(h, ledger.events, k) && !Unhashed(ledger.events[k])
  {
    forall k | 0 <= k < |ledger.events| ensures FitsAt(h, ledger.events, k) && !Unhashed(ledger.events[k]) {
      var t := ledger.events[k].content.tenantId;
      assert ChainValid(h, ledger, t);
      LinkedInLedger(h, ledger.events, t);
      assert |ledger.events[k].eventHash| == 64;
    }
  }

  /**
   Blanked hashes do not hide a changed event while the head is kept: when the edited ledger is accepted, its
   tenant's events are those the head was written for, or a hash collision is at hand.
   */
  lemma {:induction false} BackfillRespectsKeptHead(h: Hash, original: Ledger, edited: Ledger, filled: Ledger, tenantId: string)
    requires ChainValid(h, original, tenantId) && tenantId in original.heads
    requires tenantId in edited.heads && edited.heads[tenantId] == original.heads[tenantId]
    requires Filled(h, edited, filled)
    ensures var a, b := TenantRows(original.events, tenantId), TenantRows(filled.events, tenantId);
            SameEvents(a, b) || Breaks(h, Compare(a, b))
  {
    assert ChainValid(h, filled, tenantId);
    TamperEvidence(h, original, filled, tenantId);
  }

  /** One tenant's events rewritten at will, with their hashes blanked and its head dropped. */
  function Rewritten(ledger: Ledger, t: string, contents: seq<Content>): Ledger
    requires |contents| == |ledger.events|
  {
    Ledger(seq(|ledger.events|, k requires 0 <= k < |ledger.events| =>
             if ledger.events[k].content.tenantId == t
             then Row(ledger.events[k].sequence, contents[k].(tenantId := t), "", "") else ledger.events[k]),
           map u | u in ledger.heads && u != t :: ledger.heads[u])
  }

  lemma {:induction false} OthersUnwritten(ledger: Ledger, t: string, contents: seq<Content>, u: string, k: nat)
    requires |contents| == |ledger.events| && k <= |ledger.events| && u != t
    ensures TenantRows(Rewritten(ledger, t, contents).events[..k], u) == TenantRows(ledger.events[..k], u)
    decreases k
  {
    if k > 0 {
      var before, after := ledger.events, Rewritten(ledger, t, contents).events;
      OthersUnwritten(ledger, t, contents, u, k - 1);
      assert before[..k] == before[..k - 1] + [before[k - 1]] && after[..k] == after[..k - 1] + [after[k - 1]];
      TenantRowsSnoc(before[..k - 1], before[k - 1], u);
      TenantRowsSnoc(after[..k - 1], after[k - 1], u);
    }
  }

  /** Without the head nothing holds: every rewriting of a tenant's events is accepted by the pass, and then verifies. */
  lemma {:induction false} BackfillAcceptsRewriting(h: Hash, ledger: Ledger, t: string, contents: seq<Content>)
    requires AllValid(h, ledger) && |contents| == |ledger.events|
    ensures Backfillable(h, Rewritten(ledger, t, contents))
  {
    hide TenantRows, Digest, Linked;
    var edited := Rewritten(ledger, t, contents);
    ValidRowsFit(h, ledger);
    ValidHeadsFit(h, ledger);
    forall k | 0 <= k < |edited.events| ensures Unhashed(edited.events[k]) || FitsAt(h, edited.events, k) {
      var u := ledger.events[k].content.tenantId;
      if u != t {
        OthersUnwritten(ledger, t, contents, u, k);
        assert FitsAt(h, ledger.events, k);
      }
    }
    forall u | u in edited.heads ensures HeadFits(h, edited.events, u, edited.heads[u]) {
      OthersUnwritten(ledger, t, contents, u, |ledger.events|);
      assert ledger.events[..|ledger.events|] == ledger.events && edited.events[..|edited.events|] == edited.events;
      assert HeadFits(h, ledger.events, u, ledger.heads[u]);
    }
  }

  /** A checkpoint needs a named tenant and an identified last event. */
  predicate Checkpointable(isSpace: char -> bool, events: seq<Row>, tenantId: string) {
    && Strip(isSpace, tenantId) != ""
    && (TenantRows(events, tenantId) == []
        || TenantRows(events, tenantId)[|TenantRows(events, tenantId)| - 1].content.eventId != "")
  }

  ghost predicate VerifierAccepts(h: Hash, isSpace: char -> bool, ledger: Ledger, tenantId: string) {
    ChainValid(h, ledger, tenantId) && Checkpointable(isSpace, ledger.events, tenantId)
  }

  function HeadIn(ledger: Ledger, tenantId: string): Option<Head> {
    if tenantId in ledger.heads then Some(ledger.heads[tenantId]) else None
  }

  ghost predicate ReadAccepted(h: Hash, isSpace: char -> bool, rows: seq<Row>, head: Option<Head>, tenantId: string) {
    && Linked(h, rows)
    && Strip(isSpace, tenantId) != ""
    && head == (if rows == [] then None else Some(HeadOf(h, rows)))
    && (rows != [] ==> rows[|rows| - 1].content.eventId != "")
  }

  /** Appends either leave a tenant's rows and head alone, or give it a head that names a new event. */
  lemma {:induction false} HeadAfterAppends(h: Hash, earlier: Ledger, contents: seq<Content>, t: string)
    ensures var later := Appended(h, earlier, contents);
            && (TenantRows(later.events, t) == TenantRows(earlier.events, t) ==> HeadIn(later, t) == HeadIn(earlier, t))
            && (TenantRows(later.events, t) != TenantRows(earlier.events, t) ==>
                  HeadIn(later, t).Some? && !HasEvent(earlier, HeadIn(later, t).value.headEventId))
            && earlier.events <= later.events && |TenantRows(earlier.events, t)| <= |TenantRows(later.events, t)|
    decreases |contents|
  {
    hide TenantRows;
    if contents != [] {
      var n := |contents| - 1;
      var before := Appended(h, earlier, contents[..n]);
      HeadAfterAppends(h, earlier, contents[..n], t);
      var r := Append(h, before, |contents|, contents[n]);
      if r.Ok? {
        TenantRowsSnoc(before.events, r.value.events[|before.events|], t);
        assert !HasEvent(earlier, contents[n].eventId) by {
          forall k | 0 <= k < |earlier.events| ensures earlier.events[k].content.eventId != contents[n].eventId {
            assert before.events[k] == earlier.events[k];
          }
        }
      }
    }
  }

  /**
   With appends between reading the rows and reading the head, the verifier accepts exactly when it would have
   accepted at the first moment and the tenant got no event in between: never a false acceptance, and a false
   refusal only then.
   */
  lemma {:induction false} TornReadIff(h: Hash, isSpace: char -> bool, earlier: Ledger, contents: seq<Content>, t: string)
    ensures var later := Appended(h, earlier, contents);
            ReadAccepted(h, isSpace, TenantRows(earlier.events, t), HeadIn(later, t), t)
            <==> VerifierAccepts(h, isSpace, earlier, t)
                 && TenantRows(later.events, t) == TenantRows(earlier.events, t)
  {
    hide TenantRows, Linked, Digest, Strip, Appended;
    var later, rows := Appended(h, earlier, contents), TenantRows(earlier.events, t);
    HeadAfterAppends(h, earlier, contents, t);
    if rows != [] && TenantRows(later.events, t) != rows {
      TenantRowsOwned(earlier.events, t);
      assert rows[|rows| - 1] in earlier.events;
    }
  }

  /**
   It happens: a ledger the verifier accepts, before and after one append of the tenant, and yet it refuses what it
   reads around that append.
   */
  lemma {:induction false} TornReadRefuses(h: Hash, isSpace: char -> bool, first: Content, second: Content)
    requires Strip(isSpace, first.tenantId) != "" && second.tenantId == first.tenantId
    requires first.eventId != "" && second.eventId != "" && first.eventId != second.eventId
    ensures var t := first.tenantId;
            var earlier := Appended(h, Ledger([], map[]), [first]);
            var later := Appended(h, earlier, [second]);
            && VerifierAccepts(h, isSpace, earlier, t) && VerifierAccepts(h, isSpace, later, t)
            && !ReadAccepted(h, isSpace, TenantRows(earlier.events, t), HeadIn(later, t), t)
  {
    hide TenantRows, Digest, Linked, Strip, Appended;
    var t, empty := first.tenantId, Ledger([], map[]);
    var earlier := Appended(h, empty, [first]);
    var later := Appended(h, earlier, [second]);
    OneAppend(h, empty, first);
    OneAppend(h, earlier, second);
    TornReadIff(h, isSpace, earlier, [second], t);
  }

  /** One append of a new event to a valid ledger, as its tenant sees it. */
  lemma {:induction false} OneAppend(h: Hash, ledger: Ledger, c: Content)
    requires (ledger == Ledger([], map[]) || AllValid(h, ledger)) && !HasEvent(ledger, c.eventId)
    ensures var after := Appended(h, ledger, [c]);
            var rows := TenantRows(after.events, c.tenantId);
            && AllValid(h, after)
            && |after.events| == |ledger.events| + 1 && ledger.events <= after.events
            && after.events[|ledger.events|].content == c
            && |rows| == |TenantRows(ledger.events, c.tenantId)| + 1 && rows[|rows| - 1].content == c
  {
    hide TenantRows, Digest, Linked, AllValid, Appended, Append;
    NothingIsValid(h);
    AppendKeepsChains(h, ledger, 1, c);
    AppendedOnce(h, ledger, c);
    var after := Append(h, ledger, 1, c).value;
    TenantRowsSnoc(ledger.events, after.events[|ledger.events|], c.tenantId);
  }

  lemma {:induction false} AppendedOnce(h: Hash, ledger: Ledger, c: Content)
    ensures var r := Append(h, ledger, 1, c);
            && Appended(h, ledger, [c]) == AppendOrKeep(h, ledger, 1, c)
            && (r.Ok? ==> Appended(h, ledger, [c]) == r.value
                          && |r.value.events| == |ledger.events| + 1
                          && r.value.events == ledger.events + [r.value.events[|ledger.events|]]
                          && r.value.events[|ledger.events|].content == c)
  {
    assert [c][..0] == [] && Appended(h, ledger, []) == ledger;
  }

  lemma {:induction false} NothingIsValid(h: Hash)
    ensures AllValid(h, Ledger([], map[]))
  {
  }

  // ---------------------------------------------------------------- the tables

  /** The verifier's loop: every row must name the digest of the rows before it and store the next one. */
  method FollowChain(h: Hash, rows: seq<Row>) returns (r: Result<string, AuditError>)
    ensures r.Ok? <==> Linked(h, rows)
    ensures r.Ok? ==> r.value == Digest(h, rows)
  {
    hide Digest;
    assert Digest(h, []) == GenesisHash() by { NoRowsDigest(h); }
    var previousHash: string := GenesisHash();
    for i := 0 to |rows|
      invariant Linked(h, rows[..i])
      invariant previousHash == Digest(h, rows[..i])
    {
      assert rows[..i + 1] == rows[..i] + [rows[i]];
      LinkedSnoc(h, rows[..i], rows[i]);
      DigestSnoc(h, rows[..i], rows[i]);
      if rows[i].previousHash != previousHash {
        assert !Fits(h, rows[..i], rows[i]);
        return Err(BrokenLink);
      }
      var expected := EventHash(h, rows[i].content, previousHash);
      if expected != Ok(rows[i].eventHash) {
        assert !Fits(h, rows[..i], rows[i]);
        return Err(BrokenEvent);
      }
      previousHash := rows[i].eventHash;
    }
    assert rows[..|rows|] == rows;
    r := Ok(previousHash);
  }

  /**
   The verifier on what it read: it fetches rows and head one after the other, each under the lock, so the head may
   be younger than the rows.
   */
  method VerifyRead(h: Hash, isSpace: char -> bool, rows: seq<Row>, head: Option<Head>, tenantId: string)
    returns (r: Result<Checkpoint, AuditError>)
    ensures r.Ok? <==> ReadAccepted(h, isSpace, rows, head, tenantId)
    ensures r.Ok? ==> r.value == CheckpointOfRows(h, rows, tenantId)
  {
    hide Linked, Digest, Strip;
    if Strip(isSpace, tenantId) == "" {
      return Err(InvalidTenant);
    }
    var walked := FollowChain(h, rows);
    if walked.Err? {
      return Err(walked.error);
    }
    var previousHash := walked.value;
    var headEventId := if rows == [] then "" else rows[|rows| - 1].content.eventId;
    if rows == [] {
      if head.Some? {
        return Err(HeadWithoutEvents);
      }
    } else if
      || head == None || head.value.eventCount != |rows|
      || head.value.headEventId != headEventId || head.value.headHash != previousHash
    {
      return Err(HeadMismatch);
    }
    if rows != [] && headEventId == "" {
      return Err(InvalidCheckpoint);
    }
    r := Ok(Checkpoint(tenantId, |rows|, headEventId, previousHash));
  }

  lemma {:induction false} NoRowsDigest(h: Hash)
    ensures Digest(h, []) == GenesisHash()
  {
  }

  class AuditTables {
    const h: Hash
    const isSpace: char -> bool
    var events: seq<Row>
    var heads: map<string, Head>
    var lastSequence: nat

    constructor (h: Hash, isSpace: char -> bool)
      ensures this.h == h && Contents() == Ledger([], map[]) && lastSequence == 0
    {
      this.h := h;
      this.isSpace := isSpace;
      events := [];
      heads := map[];
      lastSequence := 0;
    }

    function Contents(): Ledger
      reads this
    {
      Ledger(events, heads)
    }

    predicate IsBlank(s: string) {
      Strip(isSpace, s) == ""
    }

    /** One transaction: the event and its tenant's head are written together or not at all. */
    method AppendAudit(content: Content) returns (r: Result<(), AuditError>)
      modifies this
      ensures if IsBlank(content.tenantId) then r == Err(InvalidTenant) && Contents() == old(Contents())
              else
                var t := Append(h, old(Contents()), old(lastSequence) + 1, content);
                if t.Ok? then r == Ok(()) && Contents() == t.value && lastSequence == old(lastSequence) + 1
                else r == Err(t.error) && Contents() == old(Contents()) && lastSequence == old(lastSequence)
    {
      if IsBlank(content.tenantId) {
        return Err(InvalidTenant);
      }
      var previousHash: string := GenesisHash();
      var previousCount := 0;
      if content.tenantId in heads {
        previousHash, previousCount := heads[content.tenantId].headHash, heads[content.tenantId].eventCount;
      }
      var eventHash := EventHash(h, content, previousHash);
      if eventHash.Err? {
        return Err(eventHash.error);
      }
      if HasEvent(Contents(), content.eventId) {
        return Err(DuplicateEventId);
      }
      lastSequence := lastSequence + 1;
      events := events + [Row(lastSequence, content, previousHash, eventHash.value)];
      heads := heads[content.tenantId := Head(previousCount + 1, content.eventId, eventHash.value)];
      return Ok(());
    }

    /** Accepts exactly the verifying chains of a named tenant whose last event has an identity. */
    method VerifyAuditChain(tenantId: string) returns (r: Result<Checkpoint, AuditError>)
      ensures r.Ok? <==> VerifierAccepts(h, isSpace, Contents(), tenantId)
      ensures r.Ok? ==> r.value == CheckpointOf(h, Contents(), tenantId)
    {
      hide Linked, Digest, Strip, TenantRows;
      r := VerifyRead(h, isSpace, TenantRows(events, tenantId), HeadIn(Contents(), tenantId), tenantId);
    }

    /**
     The pass made when the store is opened. It accepts exactly when every hashed row and every stored head
     is what the contents demand; then blank hashes and missing heads are filled in and every chain verifies.
     */
    method EnsureAuditChain() returns (r: Result<(), AuditError>)
      modifies this
      ensures r.Ok? <==> Backfillable(h, old(Contents()))
      ensures r.Ok? ==> Filled(h, old(Contents()), Contents())
      ensures r.Err? ==> Contents() == old(Contents())
    {
      hide TenantRows, Digest, Linked;
      var filled, previous, count, headEvent := FillRows(events);
      if filled.Err? {
        return Err(filled.error);
      }
      var newHeads := FillHeads(events, heads, previous, count, headEvent);
      if newHeads.Err? {
        return Err(newHeads.error);
      }
      FilledIsValid(h, Contents(), filled.value, newHeads.value);
      events, heads := filled.value, newHeads.value;
      return Ok(());
    }

    /** The first half of the pass: blank rows are hashed, hashed rows are only compared. */
    method FillRows(rows: seq<Row>)
      returns (r: Result<seq<Row>, AuditError>, previous: map<string, string>, count: map<string, int>,
               headEvent: map<string, string>)
      ensures r.Ok? <==> forall k | 0 <= k < |rows| :: Unhashed(rows[k]) || FitsAt(h, rows, k)
      ensures r.Ok? ==>
                && |r.value| == |rows|
                && (forall k | 0 <= k < |rows| :: r.value[k] == FilledAt(h, rows, k))
                && Tallied(h, rows, previous, count, headEvent)
    {
      hide TenantRows, Digest, Linked;
      previous, count, headEvent := map[], map[], map[];
      var filled: seq<Row> := [];
      NothingTallied(h);
      for k := 0 to |rows|
        invariant |filled| == k
        invariant Tallied(h, rows[..k], previous, count, headEvent)
        invariant forall j | 0 <= j < k :: Unhashed(rows[j]) || FitsAt(h, rows, j)
        invariant forall j | 0 <= j < k :: filled[j] == FilledAt(h, rows, j)
      {
        var t := rows[k].content.tenantId;
        var expectedPrevious := Lookup(previous, t);
        TallyStep(h, rows, k, previous, count, headEvent);
        var expected := h(Document(rows[k].content, expectedPrevious));
        if !Unhashed(rows[k]) && (rows[k].previousHash != expectedPrevious || rows[k].eventHash != expected) {
          assert !FitsAt(h, rows, k);
          r := Err(BrokenLink);
          return;
        }
        filled := filled + [rows[k].(previousHash := expectedPrevious, eventHash := expected)];
        previous := previous[t := expected];
        count := count[t := CountOf(count, t) + 1];
        headEvent := headEvent[t := rows[k].content.eventId];
      }
      assert rows[..|rows|] == rows;
      r := Ok(filled);
    }

    /** The second half of the pass: missing heads are inserted, stored heads are only compared. */
    method FillHeads(ghost rows: seq<Row>, storedHeads: map<string, Head>, previous: map<string, string>,
                     count: map<string, int>, headEvent: map<string, string>)
      returns (r: Result<map<string, Head>, AuditError>)
      requires Tallied(h, rows, previous, count, headEvent)
      ensures r.Ok? <==>
                forall t | t in storedHeads :: HeadFits(h, rows, t, storedHeads[t])
      ensures r.Ok? ==>
                && (forall t :: t in r.value <==> TenantRows(rows, t) != [])
                && (forall t | t in r.value :: HeadFits(h, rows, t, r.value[t]))
                && (forall t | t in storedHeads :: t in r.value && r.value[t] == storedHeads[t])
    {
      hide TenantRows, Digest, Linked;
      if t :| t in storedHeads && t !in count {
        assert !HeadFits(h, rows, t, storedHeads[t]);
        return Err(HeadWithoutEvents);
      }
      var newHeads, todo := storedHeads, count.Keys;
      while todo != {}
        invariant todo <= count.Keys
        invariant newHeads.Keys == storedHeads.Keys + (count.Keys - todo)
        invariant forall t | t in count.Keys && t !in todo :: HeadFits(h, rows, t, newHeads[t])
        invariant forall t | t in storedHeads :: newHeads[t] == storedHeads[t]
      {
        var t :| t in todo;
        var head := Head(count[t], headEvent[t], previous[t]);
        assert HeadFits(h, rows, t, head);
        if t !in storedHeads {
          newHeads := newHeads[t := head];
        } else if storedHeads[t] != head {
          return Err(HeadMismatch);
        }
        todo := todo - {t};
      }
      return Ok(newHeads);
    }
  }

  function FilledAt(h: Hash, events: seq<Row>, k: nat): Row
    requires k < |events|
  {
    FilledRow(h, TenantRows(events[..k], events[k].content.tenantId), events[k])
  }

  /** Filling every row from the contents before it links every tenant's chain. */
  lemma {:induction false} FilledChains(h: Hash, events: seq<Row>, filled: seq<Row>, heads: map<string, Head>)
    requires |filled| == |events|
    requires forall k | 0 <= k < |filled| :: filled[k] == FilledAt(h, events, k)
    requires forall t :: t in heads <==> TenantRows(events, t) != []
    requires forall t | t in heads :: HeadFits(h, events, t, heads[t])
    ensures SameContents(events, filled) && AllValid(h, Ledger(filled, heads))
  {
    hide TenantRows, Digest, Linked, FitsAt;
    assert SameContents(events, filled);
    forall k | 0 <= k < |filled| ensures FitsAt(h, filled, k) {
      FilledRowFits(h, events, filled, k);
    }
    forall t ensures ChainValid(h, Ledger(filled, heads), t) {
      LinkedInLedger(h, filled, t);
      TenantRowsOfContents(events, filled, t);
      DigestOfContents(h, TenantRows(events, t), TenantRows(filled, t));
    }
  }

  lemma {:induction false} FilledIsValid(h: Hash, before: Ledger, filled: seq<Row>, heads: map<string, Head>)
    requires |filled| == |before.events|
    requires forall k | 0 <= k < |filled| :: filled[k] == FilledAt(h, before.events, k)
    requires forall k | 0 <= k < |filled| :: Unhashed(before.events[k]) || FitsAt(h, before.events, k)
    requires forall t :: t in heads <==> TenantRows(before.events, t) != []
    requires forall t | t in heads :: HeadFits(h, before.events, t, heads[t])
    requires forall t | t in before.heads :: t in heads && heads[t] == before.heads[t]
    ensures Filled(h, before, Ledger(filled, heads))
  {
    FilledChains(h, before.events, filled, heads);
    forall k | 0 <= k < |filled| && !Unhashed(before.events[k]) ensures filled[k] == before.events[k] {
      assert FitsAt(h, before.events, k);
    }
  }

  lemma {:induction false} FilledRowFits(h: Hash, events: seq<Row>, filled: seq<Row>, k: nat)
    requires SameContents(events, filled) && k < |events|
    requires filled[k] == FilledAt(h, events, k)
    ensures FitsAt(h, filled, k)
  {
    var t := events[k].content.tenantId;
    assert SameContents(events[..k], filled[..k]);
    TenantRowsOfContents(events[..k], filled[..k], t);
    var a, b := TenantRows(events[..k], t), TenantRows(filled[..k], t);
    DigestOfContents(h, a, b);
    assert SameContents(a + [events[k]], b + [filled[k]]);
    DigestOfContents(h, a + [events[k]], b + [filled[k]]);
  }
}
