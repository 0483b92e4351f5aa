/**
 The hash chain of the audit ledger (`audit_integrity.py`): what a chain is, when it verifies,
 and what two verifying ledgers with the same head have in common. The hash stays abstract; no
 property of it is assumed, so tamper evidence reads "equal, or here are two documents that collide".
 */
module AuditIntegrity {
  import opened Prelude

  /** The hashed columns of an event; the payload is its canonical JSON. */
  datatype Content = Content(
    eventId: string,
    tenantId: string,
    requestId: string,
    occurredAt: string,
    action: string,
    resourceType: string,
    resourceId: string,
    actor: string,
    payload: string)

  datatype Document = Document(content: Content, previousHash: string)

  type Hash = Document -> Sha256

  datatype Row = Row(sequence: nat, content: Content, previousHash: string, eventHash: string)

  datatype Head = Head(eventCount: int, headEventId: string, headHash: string)

  datatype Ledger = Ledger(events: seq<Row>, heads: map<string, Head>)

  function GenesisHash(): Sha256 {
    ZeroDigest()
  }

  // ---------------------------------------------------------------- chains

  /** The chain hash of a list of events: a function of their contents alone. */
  function Digest(h: Hash, rows: seq<Row>): Sha256 {
    if rows == [] then GenesisHash()
    else h(Document(rows[|rows| - 1].content, Digest(h, rows[..|rows| - 1])))
  }

  /** A row stores the digests of the events before it and up to it. */
  predicate Fits(h: Hash, before: seq<Row>, row: Row) {
    row.previousHash == Digest(h, before) && row.eventHash == Digest(h, before + [row])
  }

  ghost predicate Linked(h: Hash, rows: seq<Row>) {
    forall i | 0 <= i < |rows| :: Fits(h, rows[..i], rows[i])
  }

  lemma {:induction false} LinkedSnoc(h: Hash, rows: seq<Row>, row: Row)
    ensures Linked(h, rows + [row]) <==> Linked(h, rows) && Fits(h, rows, row)
  {
    var all := rows + [row];
    assert all[..|rows|] == rows;
    forall i | 0 <= i < |rows| ensures all[..i] == rows[..i] && all[i] == rows[i] {
    }
    if Linked(h, all) {
      assert Fits(h, all[..|rows|], all[|rows|]);
      forall i | 0 <= i < |rows| ensures Fits(h, rows[..i], rows[i]) {
        assert Fits(h, all[..i], all[i]);
      }
    }
  }

  lemma {:induction false} DigestSnoc(h: Hash, rows: seq<Row>, row: Row)
    ensures Digest(h, rows + [row]) == h(Document(row.content, Digest(h, rows)))
  {
    assert (rows + [row])[..|rows|] == rows;
  }

  /** The digest of a linked chain is the stored hash of its last row. */
  lemma {:induction false} LinkedDigest(h: Hash, rows: seq<Row>)
    requires Linked(h, rows) && rows != []
    ensures rows[|rows| - 1].eventHash == Digest(h, rows)
  {
    var n := |rows| - 1;
    assert Fits(h, rows[..n], rows[n]);
    assert rows[..n] + [rows[n]] == rows;
  }

  /** The events of one tenant, in ledger order. */
  function TenantRows(events: seq<Row>, tenantId: string): seq<Row> {
    if events == [] then []
    else
      var n := |events| - 1;
      if events[n].content.tenantId == tenantId then TenantRows(events[..n], tenantId) + [events[n]]
      else TenantRows(events[..n], tenantId)
  }

  lemma {:induction false} TenantRowsSnoc(events: seq<Row>, row: Row, tenantId: string)
    ensures TenantRows(events + [row], tenantId)
            == TenantRows(events, tenantId) + if row.content.tenantId == tenantId then [row] else []
  {
    assert (events + [row])[..|events|] == events;
  }

  lemma {:induction false} TenantRowsTake(events: seq<Row>, k: nat, tenantId: string)
    requires k < |events|
    ensures TenantRows(events[..k + 1], tenantId)
            == TenantRows(events[..k], tenantId) + if events[k].content.tenantId == tenantId then [events[k]] else []
  {
    assert events[..k + 1] == events[..k] + [events[k]];
    TenantRowsSnoc(events[..k], events[k], tenantId);
  }

  lemma {:induction false} TenantRowsOwned(events: seq<Row>, tenantId: string)
    ensures forall i | 0 <= i < |TenantRows(events, tenantId)| ::
              TenantRows(events, tenantId)[i].content.tenantId == tenantId && TenantRows(events, tenantId)[i] in events
    ensures TenantRows(events, tenantId) == [] <==> forall k | 0 <= k < |events| :: events[k].content.tenantId != tenantId
  {
    if events != [] {
      var n := |events| - 1;
      TenantRowsOwned(events[..n], tenantId);
      TenantRowsTake(events, n, tenantId);
      assert events[..n + 1] == events;
    }
  }

  /** What the head row of a tenant must be. */
  function HeadOf(h: Hash, rows: seq<Row>): Head
    requires rows != []
  {
    Head(|rows|, rows[|rows| - 1].content.eventId, Digest(h, rows))
  }

  /** A head row describes the events of its tenant, and there are some. */
  predicate HeadFits(h: Hash, events: seq<Row>, tenantId: string, head: Head) {
    TenantRows(events, tenantId) != [] && head == HeadOf(h, TenantRows(events, tenantId))
  }

  /** The ledger of one tenant verifies: linked rows, and a head exactly when there are events. */
  ghost predicate ChainValid(h: Hash, ledger: Ledger, tenantId: string) {
    var rows := TenantRows(ledger.events, tenantId);
    && Linked(h, rows)
    && (rows == [] ==> tenantId !in ledger.heads)
    && (rows != [] ==> tenantId in ledger.heads && HeadFits(h, ledger.events, tenantId, ledger.heads[tenantId]))
  }

  // ---------------------------------------------------------------- chains seen from the whole ledger

  /** Event `k` of the whole ledger fits behind the earlier events of its own tenant. */
  ghost predicate FitsAt(h: Hash, events: seq<Row>, k: nat)
    requires k < |events|
  {
    Fits(h, TenantRows(events[..k], events[k].content.tenantId), events[k])
  }

  /** Checking one tenant's rows in isolation or inside the interleaved ledger is the same. */
  lemma {:induction false} LinkedInLedger(h: Hash, events: seq<Row>, tenantId: string)
    ensures Linked(h, TenantRows(events, tenantId))
            <==> forall k | 0 <= k < |events| && events[k].content.tenantId == tenantId :: FitsAt(h, events, k)
  {
    if events != [] {
      var n := |events| - 1;
      var init := events[..n];
      LinkedInLedger(h, init, tenantId);
      assert events[..n + 1] == events;
      TenantRowsTake(events, n, tenantId);
      forall k | 0 <= k < n ensures events[..k] == init[..k] && events[k] == init[k] {
      }
      if events[n].content.tenantId == tenantId {
        LinkedSnoc(h, TenantRows(init, tenantId), events[n]);
        assert FitsAt(h, events, n) <==> Fits(h, TenantRows(init, tenantId), events[n]);
      }
      assert forall k | 0 <= k < n :: FitsAt(h, events, k) <==> FitsAt(h, init, k);
    }
  }

  // ---------------------------------------------------------------- the dictionaries of the one-pass loops

  /** The three per-tenant dictionaries describe the events read so far. */
  ghost predicate Tallied(h: Hash, done: seq<Row>, previous: map<string, string>, count: map<string, int>,
                          headEvent: map<string, string>)
  {
    && previous.Keys == count.Keys == headEvent.Keys
    && (forall t :: t in previous <==> TenantRows(done, t) != [])
    && (forall t | t in previous :: HeadFits(h, done, t, Head(count[t], headEvent[t], previous[t])))
  }

  function Lookup(previous: map<string, string>, tenantId: string): string {
    if tenantId in previous then previous[tenantId] else GenesisHash()
  }

  function CountOf(count: map<string, int>, tenantId: string): int {
    if tenantId in count then count[tenantId] else 0
  }

  lemma {:induction false} TalliedPrevious(h: Hash, done: seq<Row>, previous: map<string, string>,
                                           count: map<string, int>, headEvent: map<string, string>, t: string)
    requires Tallied(h, done, previous, count, headEvent)
    ensures Lookup(previous, t) == Digest(h, TenantRows(done, t))
    ensures CountOf(count, t) == |TenantRows(done, t)|
    ensures IsSha256(Lookup(previous, t))
  {
    if t in previous {
      assert HeadFits(h, done, t, Head(count[t], headEvent[t], previous[t]));
    }
  }

  lemma {:induction false} NothingTallied(h: Hash)
    ensures Tallied(h, [], map[], map[], map[])
  {
  }

  lemma {:induction false} TallySnoc(h: Hash, done: seq<Row>, row: Row, previous: map<string, string>,
                                     count: map<string, int>, headEvent: map<string, string>)
    requires Tallied(h, done, previous, count, headEvent)
    ensures var t := row.content.tenantId;
            var hash := h(Document(row.content, Lookup(previous, t)));
            && hash == Digest(h, TenantRows(done, t) + [row])
            && Tallied(h, done + [row], previous[t := hash], count[t := CountOf(count, t) + 1],
                       headEvent[t := row.content.eventId])
  {
    hide TenantRows, Digest;
    var t := row.content.tenantId;
    var hash := h(Document(row.content, Lookup(previous, t)));
    TallyOwn(h, done, row, previous, count, headEvent);
    forall u | u != t ensures TenantRows(done + [row], u) == TenantRows(done, u) {
      TenantRowsSnoc(done, row, u);
      assert TenantRows(done, u) + [] == TenantRows(done, u);
    }
  }

  /** One iteration of a one-pass loop: what it expects of row `k`, and the dictionaries after it. */
  lemma {:induction false} TallyStep(h: Hash, rows: seq<Row>, k: nat, previous: map<string, string>,
                                     count: map<string, int>, headEvent: map<string, string>)
    requires k < |rows| && Tallied(h, rows[..k], previous, count, headEvent)
    ensures var t := rows[k].content.tenantId;
            var before := TenantRows(rows[..k], t);
            var hash := h(Document(rows[k].content, Lookup(previous, t)));
            && Lookup(previous, t) == Digest(h, before)
            && hash == Digest(h, before + [rows[k]])
            && Tallied(h, rows[..k + 1], previous[t := hash], count[t := CountOf(count, t) + 1],
                       headEvent[t := rows[k].content.eventId])
  {
    hide TenantRows, Digest, Tallied;
    TalliedPrevious(h, rows[..k], previous, count, headEvent, rows[k].content.tenantId);
    TallySnoc(h, rows[..k], rows[k], previous, count, headEvent);
    assert rows[..k + 1] == rows[..k] + [rows[k]];
  }

  lemma {:induction false} TallyOwn(h: Hash, done: seq<Row>, row: Row, previous: map<string, string>,
                                    count: map<string, int>, headEvent: map<string, string>)
    requires Tallied(h, done, previous, count, headEvent)
    ensures var t := row.content.tenantId;
            var hash := h(Document(row.content, Lookup(previous, t)));
            && hash == Digest(h, TenantRows(done, t) + [row])
            && HeadFits(h, done + [row], t, Head(CountOf(count, t) + 1, row.content.eventId, hash))
  {
    var t := row.content.tenantId;
    TalliedPrevious(h, done, previous, count, headEvent, t);
    TenantRowsSnoc(done, row, t);
    DigestSnoc(h, TenantRows(done, t), row);
  }

  // ---------------------------------------------------------------- tamper evidence

  /** The result of comparing two chains backwards from their heads. */
  datatype Evidence =
    | Agree
    | Collision(first: Document, second: Document)
    | GenesisPreimage(document: Document)

  function DocumentAt(rows: seq<Row>): Document
    requires rows != []
  {
    Document(rows[|rows| - 1].content, rows[|rows| - 1].previousHash)
  }

  function Compare(a: seq<Row>, b: seq<Row>): Evidence {
    if a == [] && b == [] then Agree
    else if a == [] then GenesisPreimage(DocumentAt(b))
    else if b == [] then GenesisPreimage(DocumentAt(a))
    else if DocumentAt(a) != DocumentAt(b) then Collision(DocumentAt(a), DocumentAt(b))
    else Compare(a[..|a| - 1], b[..|b| - 1])
  }

  predicate Breaks(h: Hash, e: Evidence) {
    match e
    case Agree => false
    case Collision(x, y) => x != y && h(x) == h(y)
    case GenesisPreimage(x) => h(x) == GenesisHash()
  }

  /** Same columns and same stored hashes; only the database sequence number may differ. */
  predicate SameEvent(x: Row, y: Row) {
    x.content == y.content && x.previousHash == y.previousHash && x.eventHash == y.eventHash
  }

  ghost predicate SameEvents(a: seq<Row>, b: seq<Row>) {
    |a| == |b| && forall i | 0 <= i < |a| :: SameEvent(a[i], b[i])
  }

  lemma {:induction false} LinkedInit(h: Hash, rows: seq<Row>)
    requires Linked(h, rows) && rows != []
    ensures Linked(h, rows[..|rows| - 1])
    ensures rows[|rows| - 1].previousHash == Digest(h, rows[..|rows| - 1])
    ensures h(DocumentAt(rows)) == Digest(h, rows) == rows[|rows| - 1].eventHash
  {
    var n := |rows| - 1;
    assert Fits(h, rows[..n], rows[n]);
    LinkedDigest(h, rows);
    forall i | 0 <= i < n ensures Fits(h, rows[..n][..i], rows[..n][i]) {
      assert rows[..n][..i] == rows[..i];
      assert Fits(h, rows[..i], rows[i]);
    }
  }

  /** Two linked chains with one head hash are the same chain, or the comparison exhibits a broken hash. */
  lemma {:induction false} SameHeadSameChain(h: Hash, a: seq<Row>, b: seq<Row>)
    requires Linked(h, a) && Linked(h, b) && Digest(h, a) == Digest(h, b)
    ensures if Compare(a, b) == Agree then SameEvents(a, b) else Breaks(h, Compare(a, b))
    decreases |a|
  {
    if a != [] { LinkedInit(h, a); }
    if b != [] { LinkedInit(h, b); }
    if a != [] && b != [] && DocumentAt(a) == DocumentAt(b) {
      SameHeadSameChain(h, a[..|a| - 1], b[..|b| - 1]);
      if Compare(a, b) == Agree {
        SameEventsSnoc(a, b);
      }
    }
  }

  lemma {:induction false} SameEventsSnoc(a: seq<Row>, b: seq<Row>)
    requires a != [] && b != []
    requires SameEvents(a[..|a| - 1], b[..|b| - 1]) && SameEvent(a[|a| - 1], b[|b| - 1])
    ensures SameEvents(a, b)
  {
    forall i | 0 <= i < |a| - 1 ensures SameEvent(a[i], b[i]) {
      assert a[i] == a[..|a| - 1][i] && b[i] == b[..|b| - 1][i];
    }
  }

  /** With equal event counts the only way to differ is a collision of two distinct documents. */
  lemma {:induction false} EqualCountsCollide(a: seq<Row>, b: seq<Row>)
    requires |a| == |b|
    ensures !Compare(a, b).GenesisPreimage?
    decreases |a|
  {
    if a != [] {
      EqualCountsCollide(a[..|a| - 1], b[..|b| - 1]);
    }
  }

  /**
   Tamper evidence: when two ledgers of a tenant verify with the same event count and head hash, they agree
   event by event, or two distinct documents with one hash are computed from them.
   */
  lemma {:induction false} TamperEvidence(h: Hash, first: Ledger, second: Ledger, tenantId: string)
    requires ChainValid(h, first, tenantId) && ChainValid(h, second, tenantId)
    requires tenantId in first.heads && tenantId in second.heads
    requires first.heads[tenantId].eventCount == second.heads[tenantId].eventCount
    requires first.heads[tenantId].headHash == second.heads[tenantId].headHash
    ensures var a, b := TenantRows(first.events, tenantId), TenantRows(second.events, tenantId);
            || SameEvents(a, b)
            || (Compare(a, b).Collision? && Compare(a, b).first != Compare(a, b).second
                && h(Compare(a, b).first) == h(Compare(a, b).second))
  {
    var a, b := TenantRows(first.events, tenantId), TenantRows(second.events, tenantId);
    SameHeadSameChain(h, a, b);
    EqualCountsCollide(a, b);
  }
}
