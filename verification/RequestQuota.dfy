/**
 The request limiter of the run store (`consume_authenticated_request_quota`): a counter per bucket in a window
 that opens with the first request and is replaced by the first request after its end. A request that names
 several buckets is charged to all of them or to none.
 */
module RequestQuota {
  import opened Prelude
  import opened RateLimits

  datatype Window = Window(start: int, count: int)

  datatype Request = Request(limits: seq<Limit>, window: int, now: int)

  type Quotas = map<string, Window>

  predicate Distinct(limits: seq<Limit>) {
    forall i, j | 0 <= i < j < |limits| :: limits[i].bucket != limits[j].bucket
  }

  predicate ValidRequest(q: Request) {
    && q.limits != [] && q.window >= 1 && Distinct(q.limits)
    && forall i | 0 <= i < |q.limits| :: q.limits[i].bucket != "" && q.limits[i].maximum >= 1
  }

  predicate Open(table: Quotas, bucket: string, window: int, now: int) {
    bucket in table && now < table[bucket].start + window
  }

  predicate Blocked(table: Quotas, l: Limit, window: int, now: int) {
    Open(table, l.bucket, window, now) && table[l.bucket].count >= l.maximum
  }

  function Wait(table: Quotas, l: Limit, window: int, now: int): int
    requires l.bucket in table
  {
    AtLeastOne(table[l.bucket].start + window - now + 1)
  }

  /** The waiting time of the first bucket whose counter is used up, if there is one. */
  function FirstWait(table: Quotas, limits: seq<Limit>, window: int, now: int): Option<int> {
    if limits == [] then None
    else if Blocked(table, limits[0], window, now) then Some(Wait(table, limits[0], window, now))
    else FirstWait(table, limits[1..], window, now)
  }

  function Decide(table: Quotas, q: Request): Result<(), LimitError> {
    if !ValidRequest(q) then Err(InvalidArgument)
    else
      match FirstWait(table, q.limits, q.window, q.now)
      case None => Ok(())
      case Some(wait) => Err(Limited(wait))
  }

  function Charged(table: Quotas, bucket: string, window: int, now: int): Window {
    if Open(table, bucket, window, now) then Window(table[bucket].start, table[bucket].count + 1) else Window(now, 1)
  }

  function Unexpired(table: Quotas, cutoff: int): Quotas {
    map b | b in table && table[b].start >= cutoff :: table[b]
  }

  function Buckets(limits: seq<Limit>): set<string> {
    set i | 0 <= i < |limits| :: limits[i].bucket
  }

  function Charges(table: Quotas, limits: seq<Limit>, window: int, now: int): Quotas {
    map b | b in Buckets(limits) :: Charged(table, b, window, now)
  }

  /** The table after one request: expired rows go, named buckets are charged; a refusal changes nothing. */
  function After(table: Quotas, q: Request): Quotas {
    if Decide(table, q).Err? then table
    else Unexpired(table, q.now - q.window) + Charges(table, q.limits, q.window, q.now)
  }

  class RequestLimiter {
    var quotas: Quotas

    constructor ()
      ensures quotas == map[]
    {
      quotas := map[];
    }

    method Consume(limits: seq<Limit>, window: int, now: int) returns (r: Result<(), LimitError>)
      modifies this
      ensures r == Decide(old(quotas), Request(limits, window, now))
      ensures quotas == After(old(quotas), Request(limits, window, now))
    {
      r, quotas := Consumed(quotas, limits, window, now);
    }
  }

  /** The transaction on the table: a refusal leaves it as it was before the pruning. */
  method Consumed(table: Quotas, limits: seq<Limit>, window: int, now: int)
    returns (r: Result<(), LimitError>, next: Quotas)
    ensures r == Decide(table, Request(limits, window, now))
    ensures next == After(table, Request(limits, window, now))
  {
    hide *;
    ConsumeIs(table, Request(limits, window, now));
    if !ValidRequest(Request(limits, window, now)) {
      return Err(InvalidArgument), table;
    }
    var kept := Unexpired(table, now - window);
    var wait, updates := Updates(kept, limits, window, now);
    match wait {
      case Some(seconds) => r, next := Err(Limited(seconds)), table;
      case None =>
        next := Upserted(kept, limits, updates, window, now);
        r := Ok(());
    }
  }

  /** Decides over the buckets while collecting their new rows. */
  method Updates(table: Quotas, limits: seq<Limit>, window: int, now: int)
    returns (wait: Option<int>, updates: seq<Window>)
    ensures wait == FirstWait(table, limits, window, now)
    ensures wait.None? ==> |updates| == |limits|
    ensures wait.None? ==> forall i | 0 <= i < |limits| :: updates[i] == Charged(table, limits[i].bucket, window, now)
  {
    updates := [];
    var i := 0;
    while i < |limits|
      invariant 0 <= i <= |limits| && |updates| == i
      invariant FirstWait(table, limits, window, now) == FirstWait(table, limits[i..], window, now)
      invariant forall k | 0 <= k < i :: updates[k] == Charged(table, limits[k].bucket, window, now)
    {
      assert limits[i..][1..] == limits[i + 1..];
      var bucket := limits[i].bucket;
      if bucket !in table || table[bucket].start + window <= now {
        updates := updates + [Window(now, 1)];
      } else if table[bucket].count >= limits[i].maximum {
        return Some(Wait(table, limits[i], window, now)), updates;
      } else {
        updates := updates + [Window(table[bucket].start, table[bucket].count + 1)];
      }
      i := i + 1;
    }
    wait := None;
  }

  method Upserted(table: Quotas, limits: seq<Limit>, updates: seq<Window>, window: int, now: int)
    returns (next: Quotas)
    requires |updates| == |limits|
    requires forall i | 0 <= i < |limits| :: updates[i] == Charged(table, limits[i].bucket, window, now)
    ensures next == table + Charges(table, limits, window, now)
  {
    hide Charged, Charges;
    next := table;
    assert table == table + Charges(table, limits[..0], window, now) by { NoCharges(table, window, now); }
    for i := 0 to |limits|
      invariant next == table + Charges(table, limits[..i], window, now)
    {
      assert limits[..i + 1] == limits[..i] + [limits[i]];
      ChargesSnoc(table, limits[..i], limits[i], window, now);
      next := next[limits[i].bucket := updates[i]];
    }
    assert limits[..|limits|] == limits;
  }

  /** Deciding and charging on the pruned table is deciding and charging on the table. */
  lemma {:induction false} ConsumeIs(table: Quotas, q: Request)
    ensures var kept := Unexpired(table, q.now - q.window);
            if !ValidRequest(q) then Decide(table, q) == Err(InvalidArgument) && After(table, q) == table
            else
              match FirstWait(kept, q.limits, q.window, q.now)
              case Some(wait) => Decide(table, q) == Err(Limited(wait)) && After(table, q) == table
              case None => Decide(table, q) == Ok(()) && After(table, q) == kept + Charges(kept, q.limits, q.window, q.now)
  {
    hide FirstWait, Charged, Buckets, Unexpired;
    if ValidRequest(q) {
      UnexpiredDecides(table, q.limits, q.window, q.now);
    }
  }

  lemma {:induction false} NoCharges(table: Quotas, window: int, now: int)
    ensures Charges(table, [], window, now) == map[]
  {
  }

  lemma {:induction false} ChargesSnoc(table: Quotas, limits: seq<Limit>, l: Limit, window: int, now: int)
    ensures Charges(table, limits + [l], window, now)
            == Charges(table, limits, window, now)[l.bucket := Charged(table, l.bucket, window, now)]
  {
    hide Charged;
    BucketsSnoc(limits, l);
  }

  lemma {:induction false} BucketsSnoc(limits: seq<Limit>, l: Limit)
    ensures Buckets(limits + [l]) == Buckets(limits) + {l.bucket}
  {
    var all := limits + [l];
    assert all[|limits|] == l && forall i | 0 <= i < |limits| :: all[i] == limits[i];
  }

  /** Rows that the pruning drops are rows whose window is over, so the decision does not see it. */
  lemma {:induction false} UnexpiredDecides(table: Quotas, limits: seq<Limit>, window: int, now: int)
    requires window >= 1
    ensures FirstWait(Unexpired(table, now - window), limits, window, now) == FirstWait(table, limits, window, now)
    ensures forall b :: Charged(Unexpired(table, now - window), b, window, now) == Charged(table, b, window, now)
    decreases |limits|
  {
    if limits != [] {
      UnexpiredDecides(table, limits[1..], window, now);
    }
  }

  // ---------------------------------------------------------------- histories

  function Table(qs: seq<Request>): Quotas {
    if qs == [] then map[] else After(Table(qs[..|qs| - 1]), qs[|qs| - 1])
  }

  /** What has been admitted so far, one entry per bucket of every admitted request. */
  function Admitted(qs: seq<Request>): seq<Entry> {
    if qs == [] then []
    else Admitted(qs[..|qs| - 1])
         + if Decide(Table(qs[..|qs| - 1]), qs[|qs| - 1]).Ok?
           then Entries(qs[|qs| - 1].limits, qs[|qs| - 1].now)
           else []
  }

  /** The windows that were opened so far. */
  function Opened(qs: seq<Request>, bucket: string): seq<int> {
    if qs == [] then []
    else if && Decide(Table(qs[..|qs| - 1]), qs[|qs| - 1]).Ok?
            && bucket in Buckets(qs[|qs| - 1].limits)
            && !Open(Table(qs[..|qs| - 1]), bucket, qs[|qs| - 1].window, qs[|qs| - 1].now)
    then Opened(qs[..|qs| - 1], bucket) + [qs[|qs| - 1].now]
    else Opened(qs[..|qs| - 1], bucket)
  }

  /** One window length, limits within each bucket's allowance, and a clock that never runs backwards. */
  ghost predicate Regular(qs: seq<Request>, window: int, allowance: string -> nat) {
    && (forall i | 0 <= i < |qs| :: qs[i].window == window)
    && (forall i, k | 0 <= i < |qs| && 0 <= k < |qs[i].limits| ::
          qs[i].limits[k].maximum <= allowance(qs[i].limits[k].bucket))
    && (forall i, j | 0 <= i <= j < |qs| :: qs[i].now <= qs[j].now)
  }

  /**
   What ties a bucket's row to the admissions: the counter is the number of admissions since the window opened,
   the window opened with one of them and all of them lie inside it, and just before it fewer than the allowance
   were admitted within one window length.
   */
  predicate RowFits(table: Quotas, log: seq<Entry>, bucket: string, window: int, allowance: nat, now: int) {
    && Count(log, bucket, now + 1) == 0
    && if bucket in table then
         var w := table[bucket];
         && w.start <= now
         && 1 <= w.count <= allowance
         && w.count == Count(log, bucket, w.start)
         && Count(log, bucket, w.start + 1) < w.count
         && Count(log, bucket, w.start + window) == 0
         && Count(log, bucket, w.start - window + 1) < w.count + allowance
       else
         Count(log, bucket, now) == 0 && Count(log, bucket, now - window) < allowance
  }

  lemma {:induction false} MultiplicityOne(limits: seq<Limit>, bucket: string)
    requires Distinct(limits)
    ensures Multiplicity(limits, bucket) == if bucket in Buckets(limits) then 1 else 0
    decreases |limits|
  {
    if limits != [] {
      var n := |limits| - 1;
      MultiplicityOne(limits[..n], bucket);
      assert Buckets(limits) == Buckets(limits[..n]) + {limits[n].bucket};
    }
  }

  lemma {:induction false} NotFull(table: Quotas, limits: seq<Limit>, window: int, now: int, k: nat)
    requires FirstWait(table, limits, window, now).None? && k < |limits|
    ensures !Blocked(table, limits[k], window, now)
    decreases |limits|
  {
    if k > 0 {
      assert limits[k] == limits[1..][k - 1];
      NotFull(table, limits[1..], window, now, k - 1);
    }
  }

  /** A later clock alone keeps the relation. */
  lemma {:induction false} WaitKeeps(table: Quotas, log: seq<Entry>, bucket: string, window: int, allowance: nat,
                                     now: int, later: int)
    requires RowFits(table, log, bucket, window, allowance, now) && now <= later && window >= 1
    ensures RowFits(table, log, bucket, window, allowance, later)
  {
    hide Count;
    CountFalls(log, bucket, now + 1, later + 1);
    if bucket !in table {
      CountFalls(log, bucket, now, later);
      CountFalls(log, bucket, now - window, later - window);
    }
  }

  lemma {:induction false} EntryPerBucket(log: seq<Entry>, q: Request, bucket: string, cutoff: int)
    requires Distinct(q.limits)
    ensures Count(log + Entries(q.limits, q.now), bucket, cutoff)
            == Count(log, bucket, cutoff) + if bucket in Buckets(q.limits) && cutoff <= q.now then 1 else 0
  {
    hide Count, Entries, Multiplicity;
    CountConcat(log, Entries(q.limits, q.now), bucket, cutoff);
    EntriesCount(q.limits, q.now, bucket, cutoff);
    MultiplicityOne(q.limits, bucket);
  }

  lemma {:induction false} AdmitKeeps(table: Quotas, log: seq<Entry>, q: Request, bucket: string, allowance: nat)
    requires RowFits(table, log, bucket, q.window, allowance, q.now) && Decide(table, q).Ok?
    requires forall k | 0 <= k < |q.limits| && q.limits[k].bucket == bucket :: q.limits[k].maximum <= allowance
    ensures RowFits(After(table, q), log + Entries(q.limits, q.now), bucket, q.window, allowance, q.now)
  {
    hide Count, Entries, FirstWait, RowFits;
    assert Distinct(q.limits) && q.window >= 1;
    if bucket in Buckets(q.limits) {
      AdmitNamed(table, log, q, bucket, allowance);
    } else {
      AdmitOther(table, log, q, bucket, allowance);
    }
  }

  lemma {:induction false} AdmitNamed(table: Quotas, log: seq<Entry>, q: Request, bucket: string, allowance: nat)
    requires RowFits(table, log, bucket, q.window, allowance, q.now) && Decide(table, q).Ok?
    requires forall k | 0 <= k < |q.limits| && q.limits[k].bucket == bucket :: q.limits[k].maximum <= allowance
    requires bucket in Buckets(q.limits)
    ensures RowFits(After(table, q), log + Entries(q.limits, q.now), bucket, q.window, allowance, q.now)
  {
    hide Count, Entries, FirstWait, Unexpired;
    assert Distinct(q.limits) && q.window >= 1;
    var row := Charged(table, bucket, q.window, q.now);
    var next := After(table, q);
    assert bucket in next && next[bucket] == row;
    var k :| 0 <= k < |q.limits| && q.limits[k].bucket == bucket;
    NotFull(table, q.limits, q.window, q.now, k);
    EntryPerBucket(log, q, bucket, q.now + 1);
    EntryPerBucket(log, q, bucket, row.start);
    EntryPerBucket(log, q, bucket, row.start + 1);
    EntryPerBucket(log, q, bucket, row.start + q.window);
    EntryPerBucket(log, q, bucket, row.start - q.window + 1);
    CountFalls(log, bucket, q.now + 1, q.now + q.window);
    if bucket !in table {
      CountFalls(log, bucket, q.now - q.window, q.now - q.window + 1);
    } else if !Open(table, bucket, q.window, q.now) {
      CountFalls(log, bucket, table[bucket].start + q.window, q.now);
      CountFalls(log, bucket, table[bucket].start + 1, q.now - q.window + 1);
    }
  }

  lemma {:induction false} AdmitOther(table: Quotas, log: seq<Entry>, q: Request, bucket: string, allowance: nat)
    requires RowFits(table, log, bucket, q.window, allowance, q.now) && Decide(table, q).Ok?
    requires bucket !in Buckets(q.limits)
    ensures RowFits(After(table, q), log + Entries(q.limits, q.now), bucket, q.window, allowance, q.now)
  {
    hide Count, Entries, FirstWait, Charged;
    assert Distinct(q.limits) && q.window >= 1;
    forall c ensures Count(log + Entries(q.limits, q.now), bucket, c) == Count(log, bucket, c) {
      EntryPerBucket(log, q, bucket, c);
    }
    if bucket in table && table[bucket].start < q.now - q.window {
      CountFalls(log, bucket, table[bucket].start + q.window, q.now);
      CountFalls(log, bucket, table[bucket].start + 1, q.now - q.window);
    }
  }

  lemma {:induction false} RegularInit(qs: seq<Request>, window: int, allowance: string -> nat)
    requires Regular(qs, window, allowance) && qs != []
    ensures Regular(qs[..|qs| - 1], window, allowance) && qs[|qs| - 1].window == window
    ensures |qs| > 1 ==> qs[..|qs| - 1][|qs| - 2].now <= qs[|qs| - 1].now
  {
    var init := qs[..|qs| - 1];
    assert forall i | 0 <= i < |init| :: init[i] == qs[i];
  }

  /** The relation holds after every history, seen from any time not before its last request. */
  lemma {:induction false} RowsFit(qs: seq<Request>, window: int, allowance: string -> nat, bucket: string, now: int)
    requires Regular(qs, window, allowance) && window >= 1 && allowance(bucket) >= 1
    requires qs != [] ==> qs[|qs| - 1].now <= now
    ensures RowFits(Table(qs), Admitted(qs), bucket, window, allowance(bucket), now)
    decreases |qs|
  {
    if qs != [] {
      hide RowFits, Count, Entries, Decide;
      var n := |qs| - 1;
      var q := qs[n];
      RegularInit(qs, window, allowance);
      RowsFit(qs[..n], window, allowance, bucket, q.now);
      if Decide(Table(qs[..n]), q).Ok? {
        AdmitKeeps(Table(qs[..n]), Admitted(qs[..n]), q, bucket, allowance(bucket));
      } else {
        assert Admitted(qs) == Admitted(qs[..n]) + [] == Admitted(qs[..n]);
      }
      WaitKeeps(Table(qs), Admitted(qs), bucket, window, allowance(bucket), q.now, now);
    }
  }

  /** The stored counter is exact and within the allowance; a bucket without a row has nothing recent to count. */
  lemma {:induction false} CounterIsExact(qs: seq<Request>, window: int, allowance: string -> nat, bucket: string)
    requires Regular(qs, window, allowance) && window >= 1 && allowance(bucket) >= 1
    ensures bucket in Table(qs) ==>
      && Table(qs)[bucket].count == Count(Admitted(qs), bucket, Table(qs)[bucket].start)
      && 1 <= Table(qs)[bucket].count <= allowance(bucket)
    ensures qs != [] && bucket !in Table(qs) ==> Count(Admitted(qs), bucket, qs[|qs| - 1].now) == 0
  {
    RowsFit(qs, window, allowance, bucket, if qs == [] then 0 else qs[|qs| - 1].now);
  }

  /** A request changes the counters of all its buckets and of no other unexpired one, or nothing at all. */
  lemma {:induction false} ChargesAllOrNone(table: Quotas, log: seq<Entry>, q: Request, bucket: string)
    ensures Decide(table, q).Err? ==> After(table, q) == table
    ensures Decide(table, q).Ok? && Open(table, bucket, q.window, q.now) ==>
      && bucket in After(table, q)
      && After(table, q)[bucket].start == table[bucket].start
      && After(table, q)[bucket].count == table[bucket].count + (if bucket in Buckets(q.limits) then 1 else 0)
    ensures Decide(table, q).Ok? && bucket in Buckets(q.limits) && !Open(table, bucket, q.window, q.now) ==>
      bucket in After(table, q) && After(table, q)[bucket] == Window(q.now, 1)
    ensures Decide(table, q).Ok? ==>
      Count(log + Entries(q.limits, q.now), bucket, q.now)
      == Count(log, bucket, q.now) + if bucket in Buckets(q.limits) then 1 else 0
  {
    hide FirstWait, Count, Entries, Multiplicity;
    if Decide(table, q).Ok? {
      CountConcat(log, Entries(q.limits, q.now), bucket, q.now);
      EntriesCount(q.limits, q.now, bucket, q.now);
      MultiplicityOne(q.limits, bucket);
    }
  }

  /** A request is admitted exactly when no bucket it names has used up an open window. */
  lemma {:induction false} AdmittedIff(table: Quotas, q: Request)
    ensures Decide(table, q).Ok?
            <==> ValidRequest(q) && forall i | 0 <= i < |q.limits| :: !Blocked(table, q.limits[i], q.window, q.now)
  {
    FirstWaitNone(table, q.limits, q.window, q.now);
  }

  lemma {:induction false} FirstWaitNone(table: Quotas, limits: seq<Limit>, window: int, now: int)
    ensures FirstWait(table, limits, window, now).None?
            <==> forall i | 0 <= i < |limits| :: !Blocked(table, limits[i], window, now)
    decreases |limits|
  {
    if limits != [] {
      FirstWaitNone(table, limits[1..], window, now);
      assert forall i | 0 < i < |limits| :: limits[i] == limits[1..][i - 1];
    }
  }

  /** What one request does to the row of one bucket. */
  lemma {:induction false} AfterAt(table: Quotas, q: Request, bucket: string)
    ensures var next := After(table, q);
            if Decide(table, q).Err? then next == table
            else if bucket in Buckets(q.limits) then
              && bucket in next
              && (Open(table, bucket, q.window, q.now) ==> bucket in table && next[bucket].start == table[bucket].start)
              && (!Open(table, bucket, q.window, q.now) ==>
                    next[bucket].start == q.now
                    && (bucket in table ==> table[bucket].start + q.window <= q.now))
            else if bucket in table && table[bucket].start >= q.now - q.window then
              bucket in next && next[bucket] == table[bucket]
            else bucket !in next
  {
    hide Decide, Buckets;
  }

  predicate SpacedBy(times: seq<int>, window: int) {
    forall i, j | 0 <= i < j < |times| :: times[i] + window <= times[j]
  }

  lemma {:induction false} SpacedSnoc(times: seq<int>, t: int, window: int)
    requires SpacedBy(times, window) && window >= 1
    requires times != [] ==> times[|times| - 1] + window <= t
    ensures SpacedBy(times + [t], window)
  {
    forall i | 0 <= i < |times| ensures times[i] <= times[|times| - 1] {
      assert i == |times| - 1 || times[i] + window <= times[|times| - 1];
    }
  }

  /** The windows opened so far as the table at a given time sees them. */
  predicate Apart(times: seq<int>, table: Quotas, bucket: string, window: int, now: int) {
    && SpacedBy(times, window)
    && (bucket in table ==> times != [] && times[|times| - 1] == table[bucket].start)
    && (bucket !in table && times != [] ==> times[|times| - 1] + window <= now)
  }

  lemma {:induction false} StepApart(times: seq<int>, table: Quotas, q: Request, bucket: string, before: int)
    requires Apart(times, table, bucket, q.window, before) && q.window >= 1 && before <= q.now
    ensures var opens := Decide(table, q).Ok? && bucket in Buckets(q.limits) && !Open(table, bucket, q.window, q.now);
            Apart(if opens then times + [q.now] else times, After(table, q), bucket, q.window, q.now)
  {
    hide Decide, Buckets, After, SpacedBy;
    AfterAt(table, q, bucket);
    if bucket in Buckets(q.limits) && !Open(table, bucket, q.window, q.now) {
      SpacedSnoc(times, q.now, q.window);
    }
  }

  lemma {:induction false} OpenedSnoc(qs: seq<Request>, bucket: string)
    requires qs != []
    ensures var init, q := qs[..|qs| - 1], qs[|qs| - 1];
            var opens := Decide(Table(init), q).Ok? && bucket in Buckets(q.limits)
                         && !Open(Table(init), bucket, q.window, q.now);
            && Opened(qs, bucket) == (if opens then Opened(init, bucket) + [q.now] else Opened(init, bucket))
            && Table(qs) == After(Table(init), q)
  {
    hide Decide, Buckets, After, Open;
  }

  lemma {:induction false} NothingApart(bucket: string, window: int, now: int)
    ensures Apart(Opened([], bucket), Table([]), bucket, window, now)
  {
  }

  lemma {:induction false} ApartLater(times: seq<int>, table: Quotas, bucket: string, window: int, now: int, later: int)
    requires Apart(times, table, bucket, window, now) && now <= later
    ensures Apart(times, table, bucket, window, later)
  {
    hide SpacedBy;
  }

  lemma {:induction false} AlwaysApart(qs: seq<Request>, window: int, allowance: string -> nat, bucket: string, now: int)
    requires Regular(qs, window, allowance) && window >= 1
    requires qs != [] ==> qs[|qs| - 1].now <= now
    ensures Apart(Opened(qs, bucket), Table(qs), bucket, window, now)
    decreases |qs|
  {
    if qs == [] {
      NothingApart(bucket, window, now);
    } else {
      var init, q := qs[..|qs| - 1], qs[|qs| - 1];
      hide *;
      RegularInit(qs, window, allowance);
      AlwaysApart(init, window, allowance, bucket, q.now);
      StepApart(Opened(init, bucket), Table(init), q, bucket, q.now);
      OpenedSnoc(qs, bucket);
      ApartLater(Opened(qs, bucket), Table(qs), bucket, window, q.now, now);
    }
  }

  /** The windows of one bucket never overlap. */
  lemma {:induction false} WindowsApart(qs: seq<Request>, window: int, allowance: string -> nat, bucket: string)
    requires Regular(qs, window, allowance) && window >= 1
    ensures var s := Opened(qs, bucket);
            && SpacedBy(s, window)
            && (bucket in Table(qs) ==> |s| > 0 && s[|s| - 1] == Table(qs)[bucket].start)
            && (bucket !in Table(qs) && |s| > 0 ==> qs != [] && s[|s| - 1] + window <= qs[|qs| - 1].now)
  {
    hide Table, Opened, SpacedBy, Regular;
    var now := if qs == [] then 0 else qs[|qs| - 1].now;
    AlwaysApart(qs, window, allowance, bucket, now);
    assert qs == [] ==> Opened(qs, bucket) == [] by { NoneOpened(bucket); }
  }

  lemma {:induction false} NoneOpened(bucket: string)
    ensures Opened([], bucket) == []
  {
  }

  /**
   Any half-open interval as long as one window sees fewer than twice the allowance: it touches two windows at
   most, and of the earlier one it misses the request that opened it.
   */
  lemma {:induction false} AdmissionsBounded(qs: seq<Request>, window: int, allowance: string -> nat,
                                             bucket: string, from: int)
    requires Regular(qs, window, allowance) && window >= 1 && allowance(bucket) >= 1
    ensures Count(Admitted(qs), bucket, from) - Count(Admitted(qs), bucket, from + window) < 2 * allowance(bucket)
    decreases |qs|
  {
    hide RowFits, Count, Entries, Decide;
    if qs == [] {
      CountNone([], bucket, from);
      CountNone([], bucket, from + window);
    } else {
      var n := |qs| - 1;
      var q, log := qs[n], Admitted(qs[..n]);
      RegularInit(qs, window, allowance);
      AdmissionsBounded(qs[..n], window, allowance, bucket, from);
      if Decide(Table(qs[..n]), q).Ok? {
        AdmissionBounded(qs, window, allowance, bucket, from);
      } else {
        assert Admitted(qs) == log + [] == log;
      }
    }
  }

  /** Seen from inside the window before it, a row that fits has fewer than twice the allowance behind it. */
  lemma {:induction false} RowBounds(table: Quotas, log: seq<Entry>, bucket: string, window: int, allowance: nat,
                                     now: int, from: int)
    requires RowFits(table, log, bucket, window, allowance, now) && bucket in table && window >= 1
    requires from <= now < from + window
    ensures Count(log, bucket, from) < 2 * allowance
  {
    hide Count;
    CountFalls(log, bucket, table[bucket].start - window + 1, from);
    if table[bucket].start < from {
      CountFalls(log, bucket, table[bucket].start, from);
    }
  }

  /** One admitted request in the table and the log. */
  lemma {:induction false} AdmittedSnoc(qs: seq<Request>, bucket: string, cutoff: int)
    requires qs != [] && Decide(Table(qs[..|qs| - 1]), qs[|qs| - 1]).Ok?
    ensures var q := qs[|qs| - 1];
            && Count(Admitted(qs), bucket, cutoff)
               == Count(Admitted(qs[..|qs| - 1]), bucket, cutoff)
                  + (if bucket in Buckets(q.limits) && cutoff <= q.now then 1 else 0)
            && (bucket in Buckets(q.limits) ==> bucket in Table(qs))
  {
    hide Count, Entries, FirstWait, Buckets, Charged, Unexpired;
    EntryPerBucket(Admitted(qs[..|qs| - 1]), qs[|qs| - 1], bucket, cutoff);
  }

  lemma {:induction false} AdmissionBounded(qs: seq<Request>, window: int, allowance: string -> nat,
                                            bucket: string, from: int)
    requires Regular(qs, window, allowance) && window >= 1 && allowance(bucket) >= 1
    requires qs != [] && Decide(Table(qs[..|qs| - 1]), qs[|qs| - 1]).Ok?
    requires var log := Admitted(qs[..|qs| - 1]);
             Count(log, bucket, from) - Count(log, bucket, from + window) < 2 * allowance(bucket)
    ensures Count(Admitted(qs), bucket, from) - Count(Admitted(qs), bucket, from + window) < 2 * allowance(bucket)
  {
    hide *;
    var q := qs[|qs| - 1];
    RegularInit(qs, window, allowance);
    AdmittedSnoc(qs, bucket, from);
    AdmittedSnoc(qs, bucket, from + window);
    if from <= q.now < from + window && bucket in Buckets(q.limits) {
      RowsFit(qs, window, allowance, bucket, q.now);
      RowBounds(Table(qs), Admitted(qs), bucket, window, allowance(bucket), q.now, from);
    }
  }

  /** The same request again and again. */
  function Repeated(q: Request, n: nat): seq<Request> {
    seq(n, _ => q)
  }

  function Copies(e: Entry, n: nat): seq<Entry> {
    seq(n, _ => e)
  }

  function OneBucket(maximum: int, window: int, now: int): Request {
    Request([Limit("b", maximum)], window, now)
  }

  lemma {:induction false} OneBucketStep(table: Quotas, maximum: int, window: int, now: int)
    requires maximum >= 1 && window >= 1
    ensures var q := OneBucket(maximum, window, now);
            && Entries(q.limits, now) == [Entry("b", now)]
            && (!Blocked(table, Limit("b", maximum), window, now) ==>
                  && Decide(table, q).Ok?
                  && After(table, q) == Unexpired(table, now - window) + map["b" := Charged(table, "b", window, now)])
  {
    var q := OneBucket(maximum, window, now);
    assert q.limits[..0] == [];
    FirstWaitNone(table, q.limits, window, now);
    assert Buckets(q.limits) == {"b"} by {
      assert q.limits[0].bucket == "b";
    }
  }

  lemma {:induction false} AfterSnoc(qs: seq<Request>, q: Request)
    ensures Table(qs + [q]) == After(Table(qs), q)
    ensures Admitted(qs + [q]) == Admitted(qs) + if Decide(Table(qs), q).Ok? then Entries(q.limits, q.now) else []
  {
    hide After, Decide, Entries;
    assert (qs + [q])[..|qs|] == qs;
  }

  /** Requests that still fit into the open window are all admitted. */
  lemma {:induction false} Fill(qs: seq<Request>, maximum: int, window: int, now: int, w: Window, n: nat)
    requires Table(qs) == map["b" := w] && window >= 1
    requires w.start <= now < w.start + window && 0 <= w.count && w.count + n <= maximum && maximum >= 1
    ensures var all := qs + Repeated(OneBucket(maximum, window, now), n);
            && Table(all) == map["b" := Window(w.start, w.count + n)]
            && Admitted(all) == Admitted(qs) + Copies(Entry("b", now), n)
    decreases n
  {
    hide Table, Admitted, Decide, After, Entries;
    var q := OneBucket(maximum, window, now);
    if n == 0 {
      assert qs + Repeated(q, 0) == qs && Admitted(qs) + Copies(Entry("b", now), 0) == Admitted(qs);
    } else {
      var before := qs + Repeated(q, n - 1);
      Fill(qs, maximum, window, now, w, n - 1);
      assert qs + Repeated(q, n) == before + [q];
      AfterSnoc(before, q);
      OneBucketStep(Table(before), maximum, window, now);
      assert Copies(Entry("b", now), n) == Copies(Entry("b", now), n - 1) + [Entry("b", now)];
    }
  }

  /** The first request after a window, or on an empty table, opens the next one. */
  lemma {:induction false} OpenNext(qs: seq<Request>, maximum: int, window: int, now: int)
    requires maximum >= 1 && window >= 1
    requires Table(qs) == map[] || exists w :: Table(qs) == map["b" := w] && w.start + window <= now
    ensures var all := qs + [OneBucket(maximum, window, now)];
            Table(all) == map["b" := Window(now, 1)] && Admitted(all) == Admitted(qs) + [Entry("b", now)]
  {
    hide Table, Admitted, Decide, After, Entries;
    AfterSnoc(qs, OneBucket(maximum, window, now));
    OneBucketStep(Table(qs), maximum, window, now);
  }

  lemma {:induction false} CopiesCount(e: Entry, n: nat, cutoff: int)
    ensures Count(Copies(e, n), e.bucket, cutoff) == if e.at >= cutoff then n else 0
    decreases n
  {
    if n > 0 {
      assert Copies(e, n)[..n - 1] == Copies(e, n - 1);
      CopiesCount(e, n - 1, cutoff);
    }
  }

  /** One request opens a window, and the rest of the allowance comes in the second before it ends. */
  function LateCrowd(maximum: nat, window: int): seq<Request>
    requires maximum >= 1
  {
    [OneBucket(maximum, window, 0)] + Repeated(OneBucket(maximum, window, window - 1), maximum - 1)
  }

  /** And then the whole next allowance at once. */
  function Crowd(maximum: nat, window: int): seq<Request>
    requires maximum >= 1
  {
    LateCrowd(maximum, window) + [OneBucket(maximum, window, window)]
    + Repeated(OneBucket(maximum, window, window), maximum - 1)
  }

  /** A new window and as many more requests in its first or its last second. */
  lemma {:induction false} WindowAdmits(qs: seq<Request>, maximum: nat, window: int, start: int, now: int)
    requires maximum >= 1 && window >= 1 && start <= now < start + window
    requires Table(qs) == map[] || exists w :: Table(qs) == map["b" := w] && w.start + window <= start
    ensures var all := qs + [OneBucket(maximum, window, start)] + Repeated(OneBucket(maximum, window, now), maximum - 1);
            && Table(all) == map["b" := Window(start, maximum)]
            && Admitted(all) == Admitted(qs) + [Entry("b", start)] + Copies(Entry("b", now), maximum - 1)
  {
    hide Table, Admitted, OneBucket, Copies, Repeated;
    OpenNext(qs, maximum, window, start);
    Fill(qs + [OneBucket(maximum, window, start)], maximum, window, now, Window(start, 1), maximum - 1);
  }

  lemma {:induction false} LateCrowdAdmitted(maximum: nat, window: int)
    requires maximum >= 1 && window >= 1
    ensures Table(LateCrowd(maximum, window)) == map["b" := Window(0, maximum)]
    ensures Admitted(LateCrowd(maximum, window)) == [Entry("b", 0)] + Copies(Entry("b", window - 1), maximum - 1)
  {
    assert Table([]) == map[] && Admitted([]) == [];
    hide Table, Admitted, OneBucket, Copies, Repeated;
    WindowAdmits([], maximum, window, 0, window - 1);
    assert [] + [OneBucket(maximum, window, 0)] == [OneBucket(maximum, window, 0)];
    assert [] + [Entry("b", 0)] == [Entry("b", 0)];
  }

  lemma {:induction false} CrowdAdmitted(maximum: nat, window: int)
    requires maximum >= 1 && window >= 1
    ensures Admitted(Crowd(maximum, window))
            == [Entry("b", 0)] + Copies(Entry("b", window - 1), maximum - 1) + [Entry("b", window)]
               + Copies(Entry("b", window), maximum - 1)
  {
    hide Table, Admitted, OneBucket, Copies, Repeated, LateCrowd;
    LateCrowdAdmitted(maximum, window);
    WindowAdmits(LateCrowd(maximum, window), maximum, window, window, window);
  }

  /** The bound is reached for every limit and every window of at least two seconds. */
  lemma {:induction false} BoundIsReached(maximum: nat, window: int)
    requires maximum >= 1 && window >= 2
    ensures var log := Admitted(Crowd(maximum, window));
            Count(log, "b", 1) - Count(log, "b", 1 + window) == 2 * maximum - 1
  {
    hide Count, Admitted, Crowd;
    CrowdAdmitted(maximum, window);
    CrowdCount(maximum, window, 1);
    CrowdCount(maximum, window, 1 + window);
  }

  lemma {:induction false} CrowdCount(maximum: nat, window: int, cutoff: int)
    requires maximum >= 1 && window >= 2 && cutoff >= 1
    ensures Count(Admitted(Crowd(maximum, window)), "b", cutoff)
            == (if window - 1 >= cutoff then maximum - 1 else 0) + (if window >= cutoff then maximum else 0)
  {
    CrowdAdmitted(maximum, window);
    hide Admitted, Crowd, Copies;
    var a, b := [Entry("b", 0)], Copies(Entry("b", window - 1), maximum - 1);
    var c, d := [Entry("b", window)], Copies(Entry("b", window), maximum - 1);
    CountConcat(a + b + c, d, "b", cutoff);
    CountConcat(a + b, c, "b", cutoff);
    CountConcat(a, b, "b", cutoff);
    assert a[..0] == [] && c[..0] == [];
    CopiesCount(Entry("b", window - 1), maximum - 1, cutoff);
    CopiesCount(Entry("b", window), maximum - 1, cutoff);
  }

  /**
   While the table stays as it is, a used-up bucket is blocked until its window ends: waiting as long as reported
   is enough, and one second less is already enough.
   */
  lemma {:induction false} ReportedWaitIsOneTooLong(table: Quotas, l: Limit, window: int, now: int, wait: nat)
    requires Blocked(table, l, window, now)
    ensures Blocked(table, l, window, now + wait) <==> wait < Wait(table, l, window, now) - 1
    ensures Wait(table, l, window, now) >= 2
  {
  }
}
