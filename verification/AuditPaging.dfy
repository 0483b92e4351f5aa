/**
 Reading the audit ledger page by page (`list_audit_events` of `api.py` over `audit_events` of
 `persistence.py`) while any tenant keeps appending between the reads.
 */
module AuditPaging {
  import opened Prelude
  import opened AuditIntegrity
  import opened AuditStore

  /** Sequence numbers are assigned in insertion order and never reused. */
  ghost predicate Ordered(rows: seq<Row>) {
    forall i, j | 0 <= i < j < |rows| :: rows[i].sequence < rows[j].sequence
  }

  function After(rows: seq<Row>, sequence: int): seq<Row> {
    if rows == [] then []
    else if rows[|rows| - 1].sequence > sequence
      then After(rows[..|rows| - 1], sequence) + [rows[|rows| - 1]]
      else After(rows[..|rows| - 1], sequence)
  }

  function Take(rows: seq<Row>, limit: nat): seq<Row> {
    if |rows| <= limit then rows else rows[..limit]
  }

  /** The store's query, with its range checks. */
  function AuditEvents(events: seq<Row>, tenantId: string, after: int, limit: int): Result<seq<Row>, AuditError> {
    if after < 0 || limit < 1 || limit > 1000 then Err(InvalidRange)
    else Ok(Take(After(TenantRows(events, tenantId), after), limit))
  }

  datatype Page = Page(events: seq<Row>, nextAfterSequence: nat, hasMore: bool)

  /** One request: it asks for one event more than the page to learn whether there are any. */
  function ListAuditEvents(events: seq<Row>, tenantId: string, after: nat, limit: nat): Page
    requires 1 <= limit <= 200
  {
    var found := AuditEvents(events, tenantId, after, limit + 1).value;
    var page := Take(found, limit);
    Page(page, if page != [] then page[|page| - 1].sequence else after, |found| > limit)
  }

  // ---------------------------------------------------------------- what one page is

  lemma {:induction false} AfterConcat(a: seq<Row>, b: seq<Row>, x: int)
    ensures After(a + b, x) == After(a, x) + After(b, x)
    decreases |b|
  {
    if b == [] {
      assert a + b == a;
    } else {
      var n := |b| - 1;
      AfterConcat(a, b[..n], x);
      assert (a + b)[..|a + b| - 1] == a + b[..n];
    }
  }

  lemma {:induction false} TenantRowsConcat(a: seq<Row>, b: seq<Row>, t: string)
    ensures TenantRows(a + b, t) == TenantRows(a, t) + TenantRows(b, t)
    decreases |b|
  {
    if b == [] {
      assert a + b == a;
    } else {
      var n := |b| - 1;
      TenantRowsConcat(a, b[..n], t);
      assert (a + b)[..|a + b| - 1] == a + b[..n];
    }
  }

  predicate UpTo(rows: seq<Row>, x: int) {
    forall i | 0 <= i < |rows| :: rows[i].sequence <= x
  }

  predicate Beyond(rows: seq<Row>, x: int) {
    forall i | 0 <= i < |rows| :: rows[i].sequence > x
  }

  lemma {:induction false} AfterAll(rows: seq<Row>, x: int)
    requires Beyond(rows, x)
    ensures After(rows, x) == rows
    decreases |rows|
  {
    if rows != [] {
      AfterAll(rows[..|rows| - 1], x);
    }
  }

  lemma {:induction false} AfterNone(rows: seq<Row>, x: int)
    requires UpTo(rows, x)
    ensures After(rows, x) == []
    decreases |rows|
  {
    if rows != [] {
      AfterNone(rows[..|rows| - 1], x);
    }
  }

  lemma {:induction false} SplitAfter(before: seq<Row>, behind: seq<Row>, x: int)
    requires UpTo(before, x) && Beyond(behind, x)
    ensures After(before + behind, x) == behind
  {
    hide After, UpTo, Beyond;
    AfterNone(before, x);
    AfterAll(behind, x);
    AfterConcat(before, behind, x);
    assert [] + behind == behind;
  }

  /** In an ordered list the rows after a cursor are a suffix of it. */
  lemma {:induction false} AfterIsSuffix(rows: seq<Row>, x: int) returns (k: nat)
    requires Ordered(rows)
    ensures k <= |rows| && After(rows, x) == rows[k..]
    ensures UpTo(rows[..k], x) && Beyond(rows[k..], x)
  {
    hide After;
    k := 0;
    while k < |rows| && rows[k].sequence <= x
      invariant k <= |rows|
      invariant forall i | 0 <= i < k :: rows[i].sequence <= x
    {
      k := k + 1;
    }
    assert rows == rows[..k] + rows[k..];
    SplitAfter(rows[..k], rows[k..], x);
  }

  /** Around each of its rows an ordered list splits by sequence number. */
  lemma {:induction false} OrderedAround(rows: seq<Row>, m: nat)
    requires Ordered(rows) && 0 < m <= |rows|
    ensures UpTo(rows[..m], rows[m - 1].sequence) && Beyond(rows[m..], rows[m - 1].sequence)
  {
  }

  lemma {:induction false} TenantRowsOrdered(events: seq<Row>, t: string)
    requires Ordered(events)
    ensures Ordered(TenantRows(events, t))
    decreases |events|
  {
    if events != [] {
      var n := |events| - 1;
      TenantRowsOrdered(events[..n], t);
      TenantRowsOwned(events[..n], t);
      var before := TenantRows(events[..n], t);
      forall i | 0 <= i < |before| ensures before[i].sequence < events[n].sequence {
        assert before[i] in events[..n];
      }
    }
  }

  /** A page is followed by exactly the events after its cursor; without `has_more` there are none. */
  lemma {:induction false} PageThenRest(rows: seq<Row>, after: int, limit: nat)
    requires Ordered(rows) && limit >= 1
    ensures var page := Take(After(rows, after), limit);
            var next := if page != [] then page[|page| - 1].sequence else after;
            && page + After(rows, next) == After(rows, after)
            && (|After(rows, after)| <= limit <==> After(rows, next) == [])
            && (page != [] ==> next > after && exists i | 0 <= i < |rows| :: rows[i].sequence == next)
  {
    hide After, Ordered, UpTo, Beyond, Take;
    var k := AfterIsSuffix(rows, after);
    PageSlices(rows, k, limit);
    var page := Take(After(rows, after), limit);
    var m := k + |page|;
    if page != [] {
      OrderedAround(rows, m);
      SplitAfter(rows[..m], rows[m..], rows[m - 1].sequence);
      BeyondFirst(rows[k..], after);
    }
  }

  /** A page of the rows from `k` on, and what is left behind it. */
  lemma {:induction false} PageSlices(rows: seq<Row>, k: nat, limit: nat)
    requires k <= |rows| && limit >= 1
    ensures var page := Take(rows[k..], limit);
            var m := k + |page|;
            && m <= |rows| && page + rows[m..] == rows[k..] && rows == rows[..m] + rows[m..]
            && (|rows[k..]| <= limit <==> rows[m..] == [])
            && (page != [] ==> m > k && page[|page| - 1] == rows[m - 1] && rows[m - 1] in rows[k..])
            && (page == [] ==> rows[k..] == [] && rows[m..] == [])
  {
    var page := Take(rows[k..], limit);
    if page != [] {
      assert rows[k..][|page| - 1] == rows[k + |page| - 1];
    }
  }

  lemma {:induction false} BeyondFirst(rows: seq<Row>, x: int)
    requires Beyond(rows, x)
    ensures forall row | row in rows :: row.sequence > x
  {
  }

  // ---------------------------------------------------------------- following the cursor

  datatype Reader = Reader(collected: seq<Row>, after: nat, more: bool)

  /** The client asks for the next page while the last one said there is more. */
  function Read(events: seq<Row>, tenantId: string, limit: nat, r: Reader): Reader
    requires 1 <= limit <= 200
  {
    if !r.more then r
    else
      var page := ListAuditEvents(events, tenantId, r.after, limit);
      Reader(r.collected + page.events, page.nextAfterSequence, page.hasMore)
  }

  /** Page reads against successive states of the growing ledger. */
  function ReadThrough(ledgers: seq<seq<Row>>, tenantId: string, limit: nat, start: nat): Reader
    requires 1 <= limit <= 200
  {
    if ledgers == [] then Reader([], start, true)
    else Read(ledgers[|ledgers| - 1], tenantId, limit,
              ReadThrough(ledgers[..|ledgers| - 1], tenantId, limit, start))
  }

  /** What was collected, followed by what is after the cursor, is what there is after the start. */
  ghost predicate Complete(events: seq<Row>, tenantId: string, start: nat, r: Reader) {
    var rows := TenantRows(events, tenantId);
    && r.collected + After(rows, r.after) == After(rows, start)
    && (r.after == start || exists i | 0 <= i < |rows| :: rows[i].sequence == r.after && r.after > start)
  }

  /** Appends by any tenant between two reads keep the reader complete. */
  lemma {:induction false} GrowthKeepsComplete(before: seq<Row>, after: seq<Row>, t: string, start: nat, r: Reader)
    requires before <= after && Ordered(after) && Complete(before, t, start, r)
    ensures Complete(after, t, start, r)
  {
    hide TenantRows, After;
    var extra := after[|before|..];
    assert after == before + extra;
    TenantRowsConcat(before, extra, t);
    var rows, new_ := TenantRows(before, t), TenantRows(extra, t);
    AfterConcat(rows, new_, r.after);
    AfterConcat(rows, new_, start);
    if r.after != start {
      var i :| 0 <= i < |rows| && rows[i].sequence == r.after;
      assert (rows + new_)[i] == rows[i];
      TenantRowsOrdered(after, t);
      assert Beyond(new_, r.after) && Beyond(new_, start) by {
        forall j | 0 <= j < |new_| ensures new_[j].sequence > r.after {
          assert (rows + new_)[|rows| + j] == new_[j];
        }
      }
      AfterAll(new_, r.after);
      AfterAll(new_, start);
    }
    assert (r.collected + After(rows, r.after)) + After(new_, r.after)
           == r.collected + (After(rows, r.after) + After(new_, r.after));
  }

  /** One page read, in terms of the rows after the cursor. */
  lemma {:induction false} ReadIs(events: seq<Row>, t: string, limit: nat, r: Reader)
    requires 1 <= limit <= 200 && r.more
    ensures var left := After(TenantRows(events, t), r.after);
            var page := Take(left, limit);
            var next := Read(events, t, limit, r);
            && next.collected == r.collected + page
            && next.after == (if page != [] then page[|page| - 1].sequence else r.after)
            && (next.more <==> |left| > limit)
  {
    hide TenantRows, After;
    var left := After(TenantRows(events, t), r.after);
    assert Take(Take(left, limit + 1), limit) == Take(left, limit);
  }

  lemma {:induction false} AddPage(collected: seq<Row>, page: seq<Row>, rest: seq<Row>)
    ensures collected + (page + rest) == (collected + page) + rest
    ensures |page + rest| == |page| + |rest|
    ensures page != [] ==> |page| > 0
  {
  }

  lemma {:induction false} EmptyPage(rows: seq<Row>, limit: nat)
    requires limit >= 1
    ensures Take(rows, limit) == [] ==> rows == []
  {
  }

  lemma {:induction false} ReadKeepsComplete(events: seq<Row>, t: string, limit: nat, start: nat, r: Reader)
    requires 1 <= limit <= 200 && Ordered(events) && Complete(events, t, start, r) && r.after >= start
    ensures var next := Read(events, t, limit, r);
            && Complete(events, t, start, next)
            && next.after >= start
            && (r.more && !next.more ==> After(TenantRows(events, t), next.after) == [])
            && (next.more ==> |After(TenantRows(events, t), next.after)| < |After(TenantRows(events, t), r.after)|)
  {
    if r.more {
      hide TenantRows, After, Read, Ordered, Take;
      var rows := TenantRows(events, t);
      TenantRowsOrdered(events, t);
      PageThenRest(rows, r.after, limit);
      ReadIs(events, t, limit, r);
      AddPage(r.collected, Take(After(rows, r.after), limit), After(rows, Read(events, t, limit, r).after));
      assert Take(After(rows, r.after), limit) == [] ==> After(rows, r.after) == [] by { EmptyPage(After(rows, r.after), limit); }
    }
  }

  ghost predicate Growing(ledgers: seq<seq<Row>>) {
    && (forall i | 0 <= i < |ledgers| :: Ordered(ledgers[i]))
    && (forall i | 0 < i < |ledgers| :: ledgers[i - 1] <= ledgers[i])
  }

  /**
   However appends fall between the reads, nothing of the tenant is skipped, repeated or reordered: the pages
   read so far are the tenant's events after the start up to the cursor, and when the last page said there is
   no more they are all of them.
   */
  lemma {:induction false} PagesAreExact(ledgers: seq<seq<Row>>, t: string, limit: nat, start: nat)
    requires 1 <= limit <= 200 && Growing(ledgers) && ledgers != []
    ensures var r := ReadThrough(ledgers, t, limit, start);
            && Complete(ledgers[|ledgers| - 1], t, start, r) && r.after >= start
            && (ReadThrough(ledgers[..|ledgers| - 1], t, limit, start).more && !r.more ==>
                  r.collected == After(TenantRows(ledgers[|ledgers| - 1], t), start))
    decreases |ledgers|
  {
    hide TenantRows, After;
    var n := |ledgers| - 1;
    var r := ReadThrough(ledgers[..n], t, limit, start);
    if n == 0 {
      assert [] + After(TenantRows(ledgers[0], t), start) == After(TenantRows(ledgers[0], t), start);
    } else {
      assert ledgers[..n][n - 1] == ledgers[n - 1];
      PagesAreExact(ledgers[..n], t, limit, start);
      GrowthKeepsComplete(ledgers[n - 1], ledgers[n], t, start, r);
    }
    ReadKeepsComplete(ledgers[n], t, limit, start, r);
  }

  /** Once appends stop, following the cursor ends, having read everything. */
  method ReadToEnd(events: seq<Row>, t: string, limit: nat, start: nat) returns (collected: seq<Row>)
    requires 1 <= limit <= 200 && Ordered(events)
    ensures collected == After(TenantRows(events, t), start)
  {
    hide TenantRows, After;
    var r := Reader([], start, true);
    assert [] + After(TenantRows(events, t), start) == After(TenantRows(events, t), start);
    while r.more
      invariant Complete(events, t, start, r) && r.after >= start
      invariant !r.more ==> After(TenantRows(events, t), r.after) == []
      decreases r.more, |After(TenantRows(events, t), r.after)|
    {
      ReadKeepsComplete(events, t, limit, start, r);
      r := Read(events, t, limit, r);
    }
    assert r.collected + [] == r.collected;
    collected := r.collected;
  }

  lemma {:induction false} AppendsOrdered(h: Hash, contents: seq<Content>)
    ensures var events := Appended(h, Ledger([], map[]), contents).events;
            Ordered(events) && forall k | 0 <= k < |events| :: events[k].sequence <= |contents|
    decreases |contents|
  {
    if contents != [] {
      AppendsOrdered(h, contents[..|contents| - 1]);
    }
  }

  /** The events after the first `i` appends of a history. */
  function EventsAfter(h: Hash, contents: seq<Content>, i: nat): seq<Row>
    requires i <= |contents|
  {
    Appended(h, Ledger([], map[]), contents[..i]).events
  }

  /** The ledgers a history of appends goes through only grow. */
  lemma {:induction false} AppendsGrow(h: Hash, contents: seq<Content>, i: nat)
    requires i <= |contents|
    ensures EventsAfter(h, contents, i) <= Appended(h, Ledger([], map[]), contents).events
    decreases |contents|
  {
    if i == |contents| {
      assert contents[..i] == contents;
    } else {
      var n := |contents| - 1;
      AppendsGrow(h, contents[..n], i);
      assert contents[..n][..i] == contents[..i];
    }
  }

  /**
   Reading page by page while a history of appends for any tenants goes on: each read sees the ledger after some
   number of them, and the pages are exactly the tenant's events after the start, up to the cursor or, once the
   last page says so, all of them.
   */
  lemma {:induction false} PagesOverAppends(h: Hash, contents: seq<Content>, moments: seq<nat>, t: string, limit: nat,
                                            start: nat)
    requires 1 <= limit <= 200 && moments != []
    requires forall i | 0 <= i < |moments| :: moments[i] <= |contents|
    requires forall i, j | 0 <= i <= j < |moments| :: moments[i] <= moments[j]
    ensures var n := |moments| - 1;
            var ledgers := seq(|moments|, i requires 0 <= i < |moments| => EventsAfter(h, contents, moments[i]));
            var r := ReadThrough(ledgers, t, limit, start);
            && Complete(ledgers[n], t, start, r)
            && (ReadThrough(ledgers[..n], t, limit, start).more && !r.more ==>
                  r.collected == After(TenantRows(ledgers[n], t), start))
  {
    hide Appended, TenantRows, After, ReadThrough, Complete;
    var ledgers := seq(|moments|, i requires 0 <= i < |moments| => EventsAfter(h, contents, moments[i]));
    forall i | 0 <= i < |ledgers| ensures Ordered(ledgers[i]) {
      AppendsOrdered(h, contents[..moments[i]]);
    }
    forall i | 0 < i < |ledgers| ensures ledgers[i - 1] <= ledgers[i] {
      AppendsGrow(h, contents[..moments[i]], moments[i - 1]);
      assert contents[..moments[i]][..moments[i - 1]] == contents[..moments[i - 1]];
    }
    PagesAreExact(ledgers, t, limit, start);
  }
}
