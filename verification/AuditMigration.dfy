/**
 `migrate_audit` of `scripts/migrate-sqlite-to-postgresql.py`: every event is rehashed with its timestamp in
 the target's normal form, compared with whatever hashes the source stored, and inserted with a full chain.
 */
module AuditMigration {
  import opened Prelude
  import opened AuditIntegrity
  import opened AuditStore

  datatype MigrationError = PreviousHashDiffers | EventHashDiffers | HeadTenantsDiffer | HeadDiffers

  function NormalContent(normalize: string -> string, c: Content): Content {
    c.(occurredAt := normalize(c.occurredAt))
  }

  function NormalRow(normalize: string -> string, row: Row): Row {
    row.(content := NormalContent(normalize, row.content))
  }

  function Normal(normalize: string -> string, rows: seq<Row>): seq<Row> {
    seq(|rows|, k requires 0 <= k < |rows| => NormalRow(normalize, rows[k]))
  }

  /** A stored hash is kept only if the chain of normalized events reproduces it. */
  ghost predicate Reproduced(h: Hash, normal: seq<Row>, k: nat)
    requires k < |normal|
  {
    var expected := FilledAt(h, normal, k);
    && (normal[k].previousHash == "" || normal[k].previousHash == expected.previousHash)
    && (normal[k].eventHash == "" || normal[k].eventHash == expected.eventHash)
  }

  ghost predicate HeadsReproduced(h: Hash, normal: seq<Row>, heads: map<string, Head>) {
    && (forall t :: t in heads <==> TenantRows(normal, t) != [])
    && (forall t | t in heads :: HeadFits(h, normal, t, heads[t]))
  }

  ghost predicate Migratable(h: Hash, normalize: string -> string, source: Ledger, hasHeads: bool) {
    var normal := Normal(normalize, source.events);
    && (forall k | 0 <= k < |normal| :: Reproduced(h, normal, k))
    && (hasHeads ==> HeadsReproduced(h, normal, source.heads))
  }

  /** The target holds the same events in the same order, keeps every stored hash, and verifies. */
  ghost predicate Migrated(h: Hash, normalize: string -> string, source: Ledger, target: Ledger) {
    && AllValid(h, target)
    && |target.events| == |source.events|
    && forall k | 0 <= k < |source.events| ::
         var from, to := source.events[k], target.events[k];
         && to.sequence == from.sequence && to.content == NormalContent(normalize, from.content)
         && (from.previousHash != "" ==> to.previousHash == from.previousHash)
         && (from.eventHash != "" ==> to.eventHash == from.eventHash)
  }

  /** The first half: chain the normalized events and compare them with the stored hashes. */
  method Prepare(h: Hash, records: seq<Row>) returns (r: Result<Ledger, MigrationError>)
    ensures r.Ok? <==> forall k | 0 <= k < |records| :: Reproduced(h, records, k)
    ensures r.Ok? ==>
              && |r.value.events| == |records|
              && (forall k | 0 <= k < |records| :: r.value.events[k] == FilledAt(h, records, k))
              && HeadsReproduced(h, records, r.value.heads)
  {
    hide TenantRows, Digest, Linked, Tallied, FilledAt;
    var previous: map<string, string>, count: map<string, int>, headEvent: map<string, string> := map[], map[], map[];
    var prepared: seq<Row> := [];
    NothingTallied(h);
    assert records[..0] == [];
    for k := 0 to |records|
      invariant |prepared| == k
      invariant Tallied(h, records[..k], previous, count, headEvent)
      invariant forall j | 0 <= j < k :: Reproduced(h, records, j)
      invariant forall j | 0 <= j < k :: prepared[j] == FilledAt(h, records, j)
    {
      var t := records[k].content.tenantId;
      var previousHash := Lookup(previous, t);
      TallyStep(h, records, k, previous, count, headEvent);
      var eventHash := h(Document(records[k].content, previousHash));
      FilledFrom(h, records, k, previousHash, eventHash);
      if records[k].previousHash != "" && records[k].previousHash != previousHash {
        assert !Reproduced(h, records, k);
        return Err(PreviousHashDiffers);
      }
      if records[k].eventHash != "" && records[k].eventHash != eventHash {
        assert !Reproduced(h, records, k);
        return Err(EventHashDiffers);
      }
      prepared := prepared + [records[k].(previousHash := previousHash, eventHash := eventHash)];
      previous := previous[t := eventHash];
      count := count[t := CountOf(count, t) + 1];
      headEvent := headEvent[t := records[k].content.eventId];
    }
    assert records[..|records|] == records;
    TalliedKeys(h, records, previous, count, headEvent);
    var heads := map t | t in count :: Head(count[t], headEvent[t], previous[t]);
    TalliedHeads(h, records, previous, count, headEvent, heads);
    return Ok(Ledger(prepared, heads));
  }

  lemma {:induction false} FilledFrom(h: Hash, records: seq<Row>, k: nat, previousHash: string, eventHash: Sha256)
    requires k < |records|
    requires var rows := TenantRows(records[..k], records[k].content.tenantId);
             previousHash == Digest(h, rows) && eventHash == Digest(h, rows + [records[k]])
    ensures FilledAt(h, records, k) == records[k].(previousHash := previousHash, eventHash := eventHash)
  {
    hide TenantRows, Digest;
  }

  lemma {:induction false} TalliedKeys(h: Hash, records: seq<Row>, previous: map<string, string>, count: map<string, int>,
                                       headEvent: map<string, string>)
    requires Tallied(h, records, previous, count, headEvent)
    ensures previous.Keys == count.Keys == headEvent.Keys
  {
    hide TenantRows, HeadFits;
  }

  lemma {:induction false} TalliedHeads(h: Hash, records: seq<Row>, previous: map<string, string>, count: map<string, int>,
                                        headEvent: map<string, string>, heads: map<string, Head>)
    requires Tallied(h, records, previous, count, headEvent) && heads.Keys == count.Keys == headEvent.Keys == previous.Keys
    requires forall t | t in heads :: heads[t] == Head(count[t], headEvent[t], previous[t])
    ensures HeadsReproduced(h, records, heads)
  {
    hide TenantRows, HeadFits;
  }

  method MigrateAudit(h: Hash, normalize: string -> string, source: Ledger, hasHeads: bool)
    returns (r: Result<Ledger, MigrationError>)
    ensures r.Ok? <==> Migratable(h, normalize, source, hasHeads)
    ensures r.Ok? ==> Migrated(h, normalize, source, r.value)
    ensures r.Ok? && hasHeads ==> r.value.heads == source.heads
  {
    hide TenantRows, Digest, Linked;
    var records := Normal(normalize, source.events);
    var prepared := Prepare(h, records);
    if prepared.Err? {
      return prepared;
    }
    var heads := prepared.value.heads;
    if hasHeads {
      if source.heads.Keys != heads.Keys {
        assert exists t :: (t in source.heads) != (t in heads);
        return Err(HeadTenantsDiffer);
      }
      if t :| t in heads && source.heads[t] != heads[t] {
        assert HeadFits(h, records, t, heads[t]) && !HeadFits(h, records, t, source.heads[t]);
        return Err(HeadDiffers);
      }
    }
    PreparedIsMigrated(h, normalize, source, prepared.value);
    return prepared;
  }

  lemma {:induction false} PreparedIsMigrated(h: Hash, normalize: string -> string, source: Ledger, target: Ledger)
    requires |target.events| == |source.events|
    requires var records := Normal(normalize, source.events);
             && HeadsReproduced(h, records, target.heads)
             && forall k | 0 <= k < |records| :: Reproduced(h, records, k) && target.events[k] == FilledAt(h, records, k)
    ensures Migrated(h, normalize, source, target)
  {
    hide TenantRows, Digest, Linked;
    var records := Normal(normalize, source.events);
    FilledChains(h, records, target.events, target.heads);
    forall k | 0 <= k < |source.events|
      ensures target.events[k].sequence == source.events[k].sequence
      ensures target.events[k].content == NormalContent(normalize, source.events[k].content)
      ensures source.events[k].previousHash != "" ==> target.events[k].previousHash == source.events[k].previousHash
      ensures source.events[k].eventHash != "" ==> target.events[k].eventHash == source.events[k].eventHash
    {
      assert Reproduced(h, records, k) && records[k] == NormalRow(normalize, source.events[k]);
    }
  }

  // ---------------------------------------------------------------- which verified ledgers migrate

  lemma {:induction false} NormalTenantRows(normalize: string -> string, events: seq<Row>, t: string)
    ensures TenantRows(Normal(normalize, events), t) == Normal(normalize, TenantRows(events, t))
    decreases |events|
  {
    if events != [] {
      var n := |events| - 1;
      NormalTenantRows(normalize, events[..n], t);
      assert Normal(normalize, events)[..n] == Normal(normalize, events[..n]);
      assert Normal(normalize, events)[n] == NormalRow(normalize, events[n]);
      var rows := TenantRows(events[..n], t);
      assert Normal(normalize, rows + [events[n]])
             == Normal(normalize, rows) + [NormalRow(normalize, events[n])];
    }
  }

  /** Rehashing this row with its normalized timestamp gives the hash it already has. */
  predicate HashSurvives(h: Hash, normalize: string -> string, row: Row) {
    h(Document(NormalContent(normalize, row.content), row.previousHash))
    == h(Document(row.content, row.previousHash))
  }

  lemma {:induction false} NormalDigest(h: Hash, normalize: string -> string, rows: seq<Row>)
    requires Linked(h, rows)
    requires forall i | 0 <= i < |rows| :: HashSurvives(h, normalize, rows[i])
    ensures Digest(h, Normal(normalize, rows)) == Digest(h, rows)
    decreases |rows|
  {
    if rows != [] {
      var n := |rows| - 1;
      LinkedInit(h, rows);
      NormalDigest(h, normalize, rows[..n]);
      assert Normal(normalize, rows)[..n] == Normal(normalize, rows[..n]);
      assert HashSurvives(h, normalize, rows[n]);
    }
  }

  /** Position by position, the normalized chain reproduces a linked chain while hashes survive. */
  lemma {:induction false} LinkedReproduced(h: Hash, normalize: string -> string, before: seq<Row>, row: Row)
    requires Linked(h, before) && Fits(h, before, row)
    requires forall i | 0 <= i < |before| :: HashSurvives(h, normalize, before[i])
    ensures var filled := FilledRow(h, Normal(normalize, before), NormalRow(normalize, row));
            && filled.previousHash == row.previousHash
            && (filled.eventHash == row.eventHash <==> HashSurvives(h, normalize, row))
  {
    hide Linked;
    NormalDigest(h, normalize, before);
    DigestSnoc(h, Normal(normalize, before), NormalRow(normalize, row));
    DigestSnoc(h, before, row);
  }

  lemma {:induction false} SurvivorsBefore(h: Hash, normalize: string -> string, source: Ledger, k: nat)
    requires AllValid(h, source) && k < |source.events|
    requires forall j | 0 <= j < k :: HashSurvives(h, normalize, source.events[j])
    ensures Reproduced(h, Normal(normalize, source.events), k) <==> HashSurvives(h, normalize, source.events[k])
    ensures HashSurvives(h, normalize, source.events[k]) ==>
              FilledAt(h, Normal(normalize, source.events), k) == NormalRow(normalize, source.events[k])
  {
    hide TenantRows, Digest, Linked;
    var events := source.events;
    var normal := Normal(normalize, events);
    var t := events[k].content.tenantId;
    var before := TenantRows(events[..k], t);
    ValidRowsFit(h, source);
    forall j | 0 <= j < k ensures FitsAt(h, events[..k], j) {
      assert events[..k][..j] == events[..j] && FitsAt(h, events, j);
    }
    LinkedInLedger(h, events[..k], t);
    TenantRowsOwned(events[..k], t);
    assert FitsAt(h, events, k) && !Unhashed(events[k]);
    forall i | 0 <= i < |before| ensures HashSurvives(h, normalize, before[i]) {
      assert before[i] in events[..k];
    }
    LinkedReproduced(h, normalize, before, events[k]);
    assert normal[..k] == Normal(normalize, events[..k]);
    NormalTenantRows(normalize, events[..k], t);
    assert normal[k] == NormalRow(normalize, events[k]);
    assert |events[k].eventHash| == 64;
  }

  /**
   A ledger that verifies migrates exactly when every event keeps its hash under the normalized timestamp.
   So one with canonical timestamps always migrates, unchanged; any other needs a hash collision at every
   timestamp that is not in normal form.
   */
  lemma {:induction false} VerifiedLedgerMigratesIff(h: Hash, normalize: string -> string, source: Ledger)
    requires AllValid(h, source)
    ensures Migratable(h, normalize, source, true)
            <==> forall k | 0 <= k < |source.events| :: HashSurvives(h, normalize, source.events[k])
  {
    hide TenantRows, Digest, Linked, HashSurvives;
    var normal := Normal(normalize, source.events);
    if Migratable(h, normalize, source, true) {
      AllReproducedSurvive(h, normalize, source, |source.events|);
    }
    if forall k | 0 <= k < |source.events| :: HashSurvives(h, normalize, source.events[k]) {
      forall k | 0 <= k < |normal| ensures Reproduced(h, normal, k) {
        SurvivorsBefore(h, normalize, source, k);
      }
      forall t
        ensures t in source.heads <==> TenantRows(normal, t) != []
        ensures t in source.heads ==> HeadFits(h, normal, t, source.heads[t])
      {
        NormalHead(h, normalize, source, t);
      }
    }
  }

  lemma {:induction false} NormalHead(h: Hash, normalize: string -> string, source: Ledger, t: string)
    requires AllValid(h, source)
    requires forall k | 0 <= k < |source.events| :: HashSurvives(h, normalize, source.events[k])
    ensures var normal := Normal(normalize, source.events);
            && (t in source.heads <==> TenantRows(normal, t) != [])
            && (t in source.heads ==> HeadFits(h, normal, t, source.heads[t]))
  {
    hide TenantRows, Digest, Linked, HashSurvives;
    assert ChainValid(h, source, t);
    NormalTenantRows(normalize, source.events, t);
    TenantRowsOwned(source.events, t);
    NormalDigest(h, normalize, TenantRows(source.events, t));
  }

  lemma {:induction false} AllReproducedSurvive(h: Hash, normalize: string -> string, source: Ledger, n: nat)
    requires AllValid(h, source) && n <= |source.events|
    requires forall k | 0 <= k < |source.events| :: Reproduced(h, Normal(normalize, source.events), k)
    ensures forall k | 0 <= k < n :: HashSurvives(h, normalize, source.events[k])
    decreases n
  {
    if n > 0 {
      AllReproducedSurvive(h, normalize, source, n - 1);
      SurvivorsBefore(h, normalize, source, n - 1);
    }
  }

  /** The ledger after a single append to an empty one. */
  function OneEvent(h: Hash, c: Content): Ledger {
    AppendOrKeep(h, Ledger([], map[]), 1, c)
  }

  /** A verifying ledger that is refused: its only timestamp is not in normal form, and the two forms hash apart. */
  lemma {:induction false} ForeignTimestampIsRefused(h: Hash, normalize: string -> string, c: Content)
    requires h(Document(NormalContent(normalize, c), GenesisHash())) != h(Document(c, GenesisHash()))
    ensures AllValid(h, OneEvent(h, c)) && !Migratable(h, normalize, OneEvent(h, c), true)
    ensures normalize(c.occurredAt) != c.occurredAt
  {
    hide TenantRows, Digest, Linked, Migratable;
    var empty := Ledger([], map[]);
    NothingIsValid(h);
    AppendKeepsChains(h, empty, 1, c);
    assert OneEvent(h, c).events[0] == Row(1, c, GenesisHash(), h(Document(c, GenesisHash())));
    VerifiedLedgerMigratesIff(h, normalize, OneEvent(h, c));
    assert !HashSurvives(h, normalize, OneEvent(h, c).events[0]);
  }
}
