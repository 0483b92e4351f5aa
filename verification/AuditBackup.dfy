/**
 The one-pass verifier of restored backups (`scripts/manage-runtime-backup.py`). It reads all tenants'
 events interleaved, with one dictionary entry per tenant, and is proved to accept exactly the ledgers in
 which every tenant's chain verifies on its own.
 */
module AuditBackup {
  import opened Prelude
  import opened AuditIntegrity
  import opened AuditStore

  datatype BackupError = PreviousHashInvalid | EventHashInvalid | HeadTenantsInvalid | HeadInvalid

  /** Every event in place and exactly the right heads, said about the whole ledger at once. */
  ghost predicate WholeLedgerFits(h: Hash, events: seq<Row>, heads: map<string, Head>) {
    && (forall k | 0 <= k < |events| :: FitsAt(h, events, k))
    && (forall t :: t in heads <==> TenantRows(events, t) != [])
    && (forall t | t in heads :: HeadFits(h, events, t, heads[t]))
  }

  lemma {:induction false} WholeLedgerMeansEveryChain(h: Hash, events: seq<Row>, heads: map<string, Head>)
    ensures WholeLedgerFits(h, events, heads) <==> AllValid(h, Ledger(events, heads))
  {
    hide TenantRows, Digest, Linked, FitsAt;
    var ledger := Ledger(events, heads);
    forall t
      ensures Linked(h, TenantRows(events, t))
              <==> forall k | 0 <= k < |events| && events[k].content.tenantId == t :: FitsAt(h, events, k)
    {
      LinkedInLedger(h, events, t);
    }
    if AllValid(h, ledger) {
      forall t
        ensures t in heads <==> TenantRows(events, t) != []
        ensures t in heads ==> HeadFits(h, events, t, heads[t])
      {
        assert ChainValid(h, ledger, t);
      }
      forall k | 0 <= k < |events| ensures FitsAt(h, events, k) {
        assert ChainValid(h, ledger, events[k].content.tenantId);
      }
    }
    if WholeLedgerFits(h, events, heads) {
      forall t ensures ChainValid(h, ledger, t) {
      }
    }
  }

  /** The loop over all events, with one entry per tenant in each of its dictionaries. */
  method ReadEvents(h: Hash, events: seq<Row>)
    returns (error: Option<BackupError>, previous: map<string, string>, count: map<string, int>,
             headEvent: map<string, string>)
    ensures error == None <==> forall k | 0 <= k < |events| :: FitsAt(h, events, k)
    ensures error == None ==> Tallied(h, events, previous, count, headEvent)
  {
    hide TenantRows, Digest, FitsAt, Tallied;
    previous, count, headEvent := map[], map[], map[];
    NothingTallied(h);
    assert events[..0] == [];
    for k := 0 to |events|
      invariant Tallied(h, events[..k], previous, count, headEvent)
      invariant forall j | 0 <= j < k :: FitsAt(h, events, j)
    {
      var t := events[k].content.tenantId;
      var expectedPrevious := Lookup(previous, t);
      TallyStep(h, events, k, previous, count, headEvent);
      FitsAtMeans(h, events, k);
      if events[k].previousHash != expectedPrevious {
        return Some(PreviousHashInvalid), previous, count, headEvent;
      }
      var expectedEvent := h(Document(events[k].content, expectedPrevious));
      if events[k].eventHash != expectedEvent {
        return Some(EventHashInvalid), previous, count, headEvent;
      }
      previous := previous[t := expectedEvent];
      count := count[t := CountOf(count, t) + 1];
      headEvent := headEvent[t := events[k].content.eventId];
    }
    assert events[..|events|] == events;
    error := None;
  }

  /** The comparison of the stored heads with the dictionaries. */
  method CompareHeads(h: Hash, ghost events: seq<Row>, heads: map<string, Head>, previous: map<string, string>,
                      count: map<string, int>, headEvent: map<string, string>)
    returns (error: Option<BackupError>)
    requires Tallied(h, events, previous, count, headEvent)
    ensures error == None <==> (forall t :: t in heads <==> TenantRows(events, t) != [])
                               && forall t | t in heads :: HeadFits(h, events, t, heads[t])
    ensures error == None ==> |heads| == |count|
  {
    hide TenantRows, Digest;
    if heads.Keys != count.Keys {
      assert !(forall t :: t in heads <==> TenantRows(events, t) != []) by {
        assert exists t :: (t in heads) != (t in count);
      }
      return Some(HeadTenantsInvalid);
    }
    var todo := count.Keys;
    while todo != {}
      invariant todo <= count.Keys
      invariant forall t | t in count && t !in todo :: HeadFits(h, events, t, heads[t])
    {
      var t :| t in todo;
      var head := heads[t];
      assert HeadFits(h, events, t, Head(count[t], headEvent[t], previous[t]));
      if head.eventCount != count[t] || head.headEventId != headEvent[t] || head.headHash != previous[t] {
        assert !HeadFits(h, events, t, heads[t]);
        return Some(HeadInvalid);
      }
      todo := todo - {t};
    }
    assert |heads| == |heads.Keys| == |count.Keys|;
    error := None;
  }

  method VerifyAuditRows(h: Hash, events: seq<Row>, heads: map<string, Head>) returns (r: Result<nat, BackupError>)
    ensures r.Ok? <==> AllValid(h, Ledger(events, heads))
    ensures r.Ok? ==> r.value == |heads|
  {
    hide TenantRows, FitsAt, HeadFits, AllValid, Tallied;
    WholeLedgerMeansEveryChain(h, events, heads);
    var error, previous, count, headEvent := ReadEvents(h, events);
    if error == None {
      error := CompareHeads(h, events, heads, previous, count, headEvent);
    }
    r := if error == None then Ok(|count|) else Err(error.value);
  }

  lemma {:induction false} FitsAtMeans(h: Hash, events: seq<Row>, k: nat)
    requires k < |events|
    ensures var rows := TenantRows(events[..k], events[k].content.tenantId);
            FitsAt(h, events, k) <==>
              events[k].previousHash == Digest(h, rows) && events[k].eventHash == Digest(h, rows + [events[k]])
  {
  }

  /**
   Any interleaving that keeps each tenant's order is accepted or refused alike, although what is checked at each
   position of the whole ledger changes with the interleaving.
   */
  lemma {:induction false} InterleavingIrrelevant(h: Hash, a: seq<Row>, b: seq<Row>, heads: map<string, Head>)
    requires forall t :: TenantRows(a, t) == TenantRows(b, t)
    ensures WholeLedgerFits(h, a, heads) <==> WholeLedgerFits(h, b, heads)
  {
    hide TenantRows, Digest, Linked, FitsAt;
    WholeLedgerMeansEveryChain(h, a, heads);
    WholeLedgerMeansEveryChain(h, b, heads);
    forall t ensures ChainValid(h, Ledger(a, heads), t) <==> ChainValid(h, Ledger(b, heads), t) {
      assert TenantRows(a, t) == TenantRows(b, t);
    }
  }

  ghost predicate Mentioned(ledger: Ledger, t: string) {
    t in ledger.heads || TenantRows(ledger.events, t) != []
  }

  /**
   The per-tenant verifier differs in one respect only: it also builds a checkpoint, which refuses a blank
   tenant and a last event without identity. Run for every tenant of the ledger, it accepts exactly what the
   one-pass verifier accepts and can be checkpointed.
   */
  lemma {:induction false} PerTenantAcceptsIff(h: Hash, isSpace: char -> bool, ledger: Ledger)
    ensures (forall t | Mentioned(ledger, t) :: VerifierAccepts(h, isSpace, ledger, t))
            <==> AllValid(h, ledger) && forall t | Mentioned(ledger, t) :: Checkpointable(isSpace, ledger.events, t)
  {
    hide TenantRows, Digest, Linked, Strip;
    forall t | !Mentioned(ledger, t) ensures ChainValid(h, ledger, t) {
      EmptyChain(h, ledger, t);
    }
    if AllValid(h, ledger) && forall t | Mentioned(ledger, t) :: Checkpointable(isSpace, ledger.events, t) {
      forall t | Mentioned(ledger, t) ensures VerifierAccepts(h, isSpace, ledger, t) {
        assert ChainValid(h, ledger, t);
      }
    }
    if forall t | Mentioned(ledger, t) :: VerifierAccepts(h, isSpace, ledger, t) {
      forall t ensures ChainValid(h, ledger, t) {
        assert Mentioned(ledger, t) ==> VerifierAccepts(h, isSpace, ledger, t);
      }
    }
  }

  lemma {:induction false} EmptyChain(h: Hash, ledger: Ledger, t: string)
    requires TenantRows(ledger.events, t) == []
    ensures ChainValid(h, ledger, t) <==> t !in ledger.heads
  {
  }

  /** A ledger accepted in one pass that the per-tenant verifier refuses: its only event has no identity. */
  lemma {:induction false} UnidentifiedEventTellsThemApart(h: Hash, isSpace: char -> bool)
    ensures var c := Content("", "tenant", "r", "t", "a", "x", "y", "z", "{}");
            var row := Row(1, c, GenesisHash(), h(Document(c, GenesisHash())));
            var ledger := Ledger([row], map["tenant" := Head(1, "", row.eventHash)]);
            AllValid(h, ledger) && !Checkpointable(isSpace, ledger.events, "tenant")
  {
    var c := Content("", "tenant", "r", "t", "a", "x", "y", "z", "{}");
    var row := Row(1, c, GenesisHash(), h(Document(c, GenesisHash())));
    var ledger := Ledger([row], map["tenant" := Head(1, "", row.eventHash)]);
    forall t ensures TenantRows([row], t) == (if t == "tenant" then [row] else []) {
      TenantRowsSnoc([], row, t);
      assert [] + [row] == [row];
    }
    DigestSnoc(h, [], row);
    LinkedSnoc(h, [], row);
    assert [] + [row] == [row];
    forall t ensures ChainValid(h, ledger, t) {
      if t != "tenant" {
        EmptyChain(h, ledger, t);
      }
    }
  }
}
