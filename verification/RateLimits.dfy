/**
 The two rate limiters of the run store (`persistence.py`). Times are whole seconds. The failure limiter is a
 sliding window over a log that is pruned as it goes; the request limiter counts in fixed windows that open
 with their first request. Bucket lists are given in the order in which the store looks at them.
 */
module RateLimits {
  import opened Prelude

  datatype Limit = Limit(bucket: string, maximum: int)

  datatype LimitError = InvalidArgument | Limited(retryAfter: int)

  datatype Entry = Entry(bucket: string, at: int)

  function AtLeastOne(seconds: int): int {
    if seconds < 1 then 1 else seconds
  }

  // ---------------------------------------------------------------- the failure log

  function Prune(rows: seq<Entry>, cutoff: int): seq<Entry> {
    if rows == [] then []
    else Prune(rows[..|rows| - 1], cutoff)
         + if rows[|rows| - 1].at >= cutoff then [rows[|rows| - 1]] else []
  }

  /** How many failures of a bucket are not older than the cutoff. */
  function Count(rows: seq<Entry>, bucket: string, cutoff: int): nat {
    if rows == [] then 0
    else Count(rows[..|rows| - 1], bucket, cutoff)
         + if rows[|rows| - 1].bucket == bucket && rows[|rows| - 1].at >= cutoff then 1 else 0
  }

  /** The oldest of them; the cutoff itself when there is none. */
  function Earliest(rows: seq<Entry>, bucket: string, cutoff: int): int {
    if rows == [] then cutoff
    else
      var row := rows[|rows| - 1];
      var init := rows[..|rows| - 1];
      if row.bucket != bucket || row.at < cutoff then Earliest(init, bucket, cutoff)
      else if Count(init, bucket, cutoff) == 0 || row.at < Earliest(init, bucket, cutoff) then row.at
      else Earliest(init, bucket, cutoff)
  }

  function FirstBlocked(rows: seq<Entry>, limits: seq<Limit>, cutoff: int): Option<Limit> {
    if limits == [] then None
    else if Count(rows, limits[0].bucket, cutoff) >= limits[0].maximum then Some(limits[0])
    else FirstBlocked(rows, limits[1..], cutoff)
  }

  predicate ValidLimits(limits: seq<Limit>, window: int) {
    limits != [] && (forall i | 0 <= i < |limits| :: limits[i].maximum >= 1) && window >= 1
  }

  /** `int((retry_at - now).total_seconds()) + 1`, and never less than one. */
  function RetryAfter(earliest: int, window: int, now: int): int {
    AtLeastOne(earliest + window - now + 1)
  }

  function Check(rows: seq<Entry>, limits: seq<Limit>, window: int, now: int): Result<(), LimitError> {
    if !ValidLimits(limits, window) then Err(InvalidArgument)
    else
      match FirstBlocked(rows, limits, now - window)
      case None => Ok(())
      case Some(l) => Err(Limited(RetryAfter(Earliest(rows, l.bucket, now - window), window, now)))
  }

  function Entries(limits: seq<Limit>, now: int): seq<Entry> {
    if limits == [] then [] else Entries(limits[..|limits| - 1], now) + [Entry(limits[|limits| - 1].bucket, now)]
  }

  datatype Operation =
    | Enforce(limits: seq<Limit>, window: int, now: int)
    | Record(limits: seq<Limit>, window: int, now: int)

  /** One transaction on the pruned table; a refusal rolls the pruning back as well. */
  function Apply(rows: seq<Entry>, op: Operation): seq<Entry> {
    if Check(rows, op.limits, op.window, op.now).Err? then rows
    else Prune(rows, op.now - op.window) + if op.Record? then Entries(op.limits, op.now) else []
  }

  /** The same operation on a log from which nothing is ever deleted. */
  function ApplyUnpruned(rows: seq<Entry>, op: Operation): seq<Entry> {
    if Check(rows, op.limits, op.window, op.now).Err? then rows
    else rows + if op.Record? then Entries(op.limits, op.now) else []
  }

  function Table(ops: seq<Operation>): seq<Entry> {
    if ops == [] then [] else Apply(Table(ops[..|ops| - 1]), ops[|ops| - 1])
  }

  function Log(ops: seq<Operation>): seq<Entry> {
    if ops == [] then [] else ApplyUnpruned(Log(ops[..|ops| - 1]), ops[|ops| - 1])
  }

  /** The failures that were really recorded: every decision is taken on the pruned table. */
  function Recorded(ops: seq<Operation>): seq<Entry> {
    if ops == [] then []
    else
      Recorded(ops[..|ops| - 1])
      + if ops[|ops| - 1].Record?
           && Check(Table(ops[..|ops| - 1]), ops[|ops| - 1].limits, ops[|ops| - 1].window, ops[|ops| - 1].now).Ok?
        then Entries(ops[|ops| - 1].limits, ops[|ops| - 1].now)
        else []
  }

  // ---------------------------------------------------------------- pruning is invisible

  lemma {:induction false} CountConcat(a: seq<Entry>, b: seq<Entry>, bucket: string, cutoff: int)
    ensures Count(a + b, bucket, cutoff) == Count(a, bucket, cutoff) + Count(b, bucket, cutoff)
    decreases |b|
  {
    if b == [] {
      assert a + b == a;
    } else {
      CountConcat(a, b[..|b| - 1], bucket, cutoff);
      assert (a + b)[..|a + b| - 1] == a + b[..|b| - 1];
    }
  }

  lemma {:induction false} PruneConcat(a: seq<Entry>, b: seq<Entry>, cutoff: int)
    ensures Prune(a + b, cutoff) == Prune(a, cutoff) + Prune(b, cutoff)
    decreases |b|
  {
    if b == [] {
      assert a + b == a;
    } else {
      PruneConcat(a, b[..|b| - 1], cutoff);
      assert (a + b)[..|a + b| - 1] == a + b[..|b| - 1];
    }
  }

  lemma {:induction false} PruneTwice(rows: seq<Entry>, c: int, d: int)
    requires c <= d
    ensures Prune(Prune(rows, c), d) == Prune(rows, d)
    decreases |rows|
  {
    if rows != [] {
      var n := |rows| - 1;
      PruneTwice(rows[..n], c, d);
      var last := if rows[n].at >= c then [rows[n]] else [];
      PruneConcat(Prune(rows[..n], c), last, d);
      if rows[n].at >= c {
        assert [rows[n]][..0] == [];
      }
    }
  }

  /** Counting and the earliest entry only look at what pruning keeps. */
  lemma {:induction false} PrunedLooksTheSame(rows: seq<Entry>, bucket: string, cutoff: int)
    ensures Count(Prune(rows, cutoff), bucket, cutoff) == Count(rows, bucket, cutoff)
    ensures Earliest(Prune(rows, cutoff), bucket, cutoff) == Earliest(rows, bucket, cutoff)
    decreases |rows|
  {
    if rows != [] {
      var n := |rows| - 1;
      PrunedLooksTheSame(rows[..n], bucket, cutoff);
      if rows[n].at >= cutoff {
        assert Prune(rows, cutoff)[..|Prune(rows, cutoff)| - 1] == Prune(rows[..n], cutoff);
      } else {
        assert Prune(rows, cutoff) == Prune(rows[..n], cutoff);
      }
    }
  }

  lemma {:induction false} FirstBlockedSame(a: seq<Entry>, b: seq<Entry>, limits: seq<Limit>, cutoff: int)
    requires Prune(a, cutoff) == Prune(b, cutoff)
    ensures FirstBlocked(a, limits, cutoff) == FirstBlocked(b, limits, cutoff)
    decreases |limits|
  {
    if limits != [] {
      PrunedLooksTheSame(a, limits[0].bucket, cutoff);
      PrunedLooksTheSame(b, limits[0].bucket, cutoff);
      FirstBlockedSame(a, b, limits[1..], cutoff);
    }
  }

  lemma {:induction false} CheckSame(a: seq<Entry>, b: seq<Entry>, limits: seq<Limit>, window: int, now: int)
    requires Prune(a, now - window) == Prune(b, now - window)
    ensures Check(a, limits, window, now) == Check(b, limits, window, now)
  {
    FirstBlockedSame(a, b, limits, now - window);
    match FirstBlocked(a, limits, now - window)
    case None =>
    case Some(l) =>
      PrunedLooksTheSame(a, l.bucket, now - window);
      PrunedLooksTheSame(b, l.bucket, now - window);
  }

  predicate CutoffsRise(ops: seq<Operation>) {
    forall i, j | 0 <= i <= j < |ops| :: ops[i].now - ops[i].window <= ops[j].now - ops[j].window
  }

  lemma {:induction false} TablePrunesLog(ops: seq<Operation>, cutoff: int)
    requires CutoffsRise(ops)
    requires ops != [] ==> ops[|ops| - 1].now - ops[|ops| - 1].window <= cutoff
    ensures Prune(Table(ops), cutoff) == Prune(Log(ops), cutoff)
    decreases |ops|
  {
    hide Prune, Check, Entries;
    if ops != [] {
      var n := |ops| - 1;
      var op := ops[n];
      var c := op.now - op.window;
      var table, log := Table(ops[..n]), Log(ops[..n]);
      TablePrunesLog(ops[..n], c);
      TablePrunesLog(ops[..n], cutoff);
      CheckSame(table, log, op.limits, op.window, op.now);
      var extra := if op.Record? then Entries(op.limits, op.now) else [];
      PruneTwice(table, c, cutoff);
      PruneConcat(Prune(table, c), extra, cutoff);
      PruneConcat(log, extra, cutoff);
    }
  }

  /**
   While cutoffs never move back, as with one window and a clock that does not run backwards, the next
   decision on the pruned table is the decision on the complete history, retry time included.
   */
  lemma {:induction false} PruningNeverChangesADecision(ops: seq<Operation>, next: Operation)
    requires CutoffsRise(ops + [next])
    ensures Check(Table(ops), next.limits, next.window, next.now)
            == Check(Log(ops), next.limits, next.window, next.now)
  {
    var all := ops + [next];
    forall i, j | 0 <= i <= j < |ops| ensures ops[i].now - ops[i].window <= ops[j].now - ops[j].window {
      assert all[i] == ops[i] && all[j] == ops[j];
    }
    if ops != [] {
      assert all[|ops| - 1] == ops[|ops| - 1] && all[|ops|] == next;
    }
    TablePrunesLog(ops, next.now - next.window);
    CheckSame(Table(ops), Log(ops), next.limits, next.window, next.now);
  }

  lemma {:induction false} RecordedIsLog(ops: seq<Operation>)
    requires CutoffsRise(ops)
    ensures Recorded(ops) == Log(ops)
    decreases |ops|
  {
    hide Check, Entries, Table;
    if ops != [] {
      var n := |ops| - 1;
      assert ops == ops[..n] + [ops[n]];
      PruningNeverChangesADecision(ops[..n], ops[n]);
      RecordedIsLog(ops[..n]);
    }
  }

  lemma {:induction false} SingleEntry(at: int, cutoff: int)
    ensures var rows := [Entry("b", at)];
            && Count(rows, "b", cutoff) == (if at >= cutoff then 1 else 0)
            && Earliest(rows, "b", cutoff) == (if at >= cutoff then at else cutoff)
            && Prune(rows, cutoff) == if at >= cutoff then rows else []
  {
    assert [Entry("b", at)][..0] == [];
  }

  lemma {:induction false} SingleLimit(rows: seq<Entry>, cutoff: int, now: int)
    ensures FirstBlocked(rows, [Limit("b", 1)], cutoff)
            == if Count(rows, "b", cutoff) >= 1 then Some(Limit("b", 1)) else None
    ensures Entries([Limit("b", 1)], now) == [Entry("b", now)]
  {
    hide Count;
    assert [Limit("b", 1)][1..] == [] && [Limit("b", 1)][..0] == [];
    assert FirstBlocked(rows, [], cutoff) == None;
  }

  /** With a shorter window in between, the table forgets what a longer window still counts. */
  lemma {:induction false} ShorterWindowForgets()
    ensures var ops := [Record([Limit("b", 1)], 300, 0), Enforce([Limit("b", 1)], 50, 100)];
            && Check(Table(ops), [Limit("b", 1)], 300, 100) == Ok(())
            && Check(Log(ops), [Limit("b", 1)], 300, 100) == Err(Limited(201))
  {
    hide Count, Earliest, Prune, FirstBlocked, Entries;
    var l := [Limit("b", 1)];
    var ops := [Record(l, 300, 0), Enforce(l, 50, 100)];
    assert ops[..1] == [ops[0]] && ops[..1][..0] == [];
    var one := [Entry("b", 0)];
    assert Count([], "b", -300) == 0 && Count([], "b", -200) == 0 && Prune([], -300) == [] by { Nothing(); }
    SingleLimit([], -300, 0);
    SingleLimit([], -200, 0);
    SingleLimit(one, 50, 100);
    SingleLimit(one, -200, 100);
    SingleEntry(0, 50);
    SingleEntry(0, -200);
    assert Table(ops[..1]) == one && Log(ops[..1]) == one;
    assert Table(ops) == [] && Log(ops) == one;
  }

  lemma {:induction false} Nothing()
    ensures forall b, c :: Count([], b, c) == 0
    ensures forall c :: Prune([], c) == []
  {
  }

  // ---------------------------------------------------------------- the bound on any window

  function Multiplicity(limits: seq<Limit>, bucket: string): nat {
    if limits == [] then 0
    else Multiplicity(limits[..|limits| - 1], bucket) + if limits[|limits| - 1].bucket == bucket then 1 else 0
  }

  lemma {:induction false} EntriesCount(limits: seq<Limit>, now: int, bucket: string, cutoff: int)
    ensures Count(Entries(limits, now), bucket, cutoff) == if now >= cutoff then Multiplicity(limits, bucket) else 0
    ensures forall i | 0 <= i < |Entries(limits, now)| :: Entries(limits, now)[i].at == now
    decreases |limits|
  {
    if limits != [] {
      EntriesCount(limits[..|limits| - 1], now, bucket, cutoff);
      assert Entries(limits, now)[..|Entries(limits, now)| - 1] == Entries(limits[..|limits| - 1], now);
    }
  }

  lemma {:induction false} NotBlocked(rows: seq<Entry>, limits: seq<Limit>, cutoff: int)
    ensures FirstBlocked(rows, limits, cutoff).None?
            <==> forall i | 0 <= i < |limits| :: Count(rows, limits[i].bucket, cutoff) < limits[i].maximum
    decreases |limits|
  {
    if limits != [] {
      NotBlocked(rows, limits[1..], cutoff);
      assert forall i | 0 < i < |limits| :: limits[i] == limits[1..][i - 1];
    }
  }

  /** Failures of a bucket in the closed interval from `from` to `from + window`. */
  function Within(rows: seq<Entry>, bucket: string, from: int, window: int): int {
    Count(rows, bucket, from) - Count(rows, bucket, from + window + 1)
  }

  lemma {:induction false} CountFalls(rows: seq<Entry>, bucket: string, c: int, d: int)
    requires c <= d
    ensures Count(rows, bucket, d) <= Count(rows, bucket, c)
    decreases |rows|
  {
    if rows != [] {
      CountFalls(rows[..|rows| - 1], bucket, c, d);
    }
  }

  lemma {:induction false} CountNone(rows: seq<Entry>, bucket: string, cutoff: int)
    requires forall i | 0 <= i < |rows| :: rows[i].at < cutoff
    ensures Count(rows, bucket, cutoff) == 0
    decreases |rows|
  {
    if rows != [] {
      CountNone(rows[..|rows| - 1], bucket, cutoff);
    }
  }

  /** Every call names each bucket at most once, with at most its allowance, at a time that never falls. */
  ghost predicate Regular(ops: seq<Operation>, window: int, allowance: string -> nat) {
    && (forall i | 0 <= i < |ops| :: ops[i].window == window
          && forall b :: Multiplicity(ops[i].limits, b) <= 1)
    && (forall i, k | 0 <= i < |ops| && 0 <= k < |ops[i].limits| ::
          ops[i].limits[k].maximum <= allowance(ops[i].limits[k].bucket))
    && (forall i, j | 0 <= i <= j < |ops| :: ops[i].now <= ops[j].now)
  }

  lemma {:induction false} RegularInit(ops: seq<Operation>, window: int, allowance: string -> nat)
    requires Regular(ops, window, allowance) && ops != []
    ensures Regular(ops[..|ops| - 1], window, allowance)
  {
    var init := ops[..|ops| - 1];
    assert forall i | 0 <= i < |init| :: init[i] == ops[i];
  }

  lemma {:induction false} Occurs(limits: seq<Limit>, bucket: string) returns (k: nat)
    requires Multiplicity(limits, bucket) > 0
    ensures k < |limits| && limits[k].bucket == bucket
    decreases |limits|
  {
    k := |limits| - 1;
    if limits[k].bucket != bucket {
      k := Occurs(limits[..k], bucket);
    }
  }

  lemma {:induction false} RecordingBounded(log: seq<Entry>, op: Operation, allowance: string -> nat,
                                            bucket: string, from: int)
    requires Check(log, op.limits, op.window, op.now).Ok?
    requires Multiplicity(op.limits, bucket) <= 1
    requires forall k | 0 <= k < |op.limits| :: op.limits[k].maximum <= allowance(op.limits[k].bucket)
    requires Within(log, bucket, from, op.window) <= allowance(bucket)
    ensures Within(log + Entries(op.limits, op.now), bucket, from, op.window) <= allowance(bucket)
  {
    hide Multiplicity, Count, Entries;
    var entries := Entries(op.limits, op.now);
    var after := from + op.window + 1;
    CountConcat(log, entries, bucket, from);
    CountConcat(log, entries, bucket, after);
    EntriesCount(op.limits, op.now, bucket, from);
    EntriesCount(op.limits, op.now, bucket, after);
    if from <= op.now < after && Multiplicity(op.limits, bucket) > 0 {
      var k := Occurs(op.limits, bucket);
      NotBlocked(log, op.limits, op.now - op.window);
      CountFalls(log, bucket, op.now - op.window, from);
    }
  }

  lemma {:induction false} LogBounded(ops: seq<Operation>, window: int, allowance: string -> nat,
                                           bucket: string, from: int)
    requires Regular(ops, window, allowance) && window >= 1
    ensures Within(Log(ops), bucket, from, window) <= allowance(bucket)
    decreases |ops|
  {
    hide Check, Multiplicity, Count, Entries;
    if ops == [] {
      assert Log(ops) == [];
      CountNone([], bucket, from);
      CountNone([], bucket, from + window + 1);
    } else {
      var n := |ops| - 1;
      var op, log := ops[n], Log(ops[..n]);
      RegularInit(ops, window, allowance);
      LogBounded(ops[..n], window, allowance, bucket, from);
      if op.Record? && Check(log, op.limits, op.window, op.now).Ok? {
        assert Log(ops) == log + Entries(op.limits, op.now);
        RecordingBounded(log, op, allowance, bucket, from);
      } else {
        assert Log(ops) == log || Log(ops) == log + [];
      }
    }
  }

  /** In any closed interval of one window's length a bucket records at most its allowance of failures. */
  lemma {:induction false} FailuresBounded(ops: seq<Operation>, window: int, allowance: string -> nat,
                                           bucket: string, from: int)
    requires Regular(ops, window, allowance) && window >= 1
    ensures Within(Recorded(ops), bucket, from, window) <= allowance(bucket)
  {
    RecordedIsLog(ops);
    LogBounded(ops, window, allowance, bucket, from);
  }

  /** An admitted recording adds a bucket once for every time it is named. */
  lemma {:induction false} RecordAddsMultiplicity(rows: seq<Entry>, limits: seq<Limit>, window: int, now: int,
                                                  bucket: string)
    requires Check(rows, limits, window, now).Ok?
    ensures Count(Apply(rows, Record(limits, window, now)), bucket, now - window)
            == Count(rows, bucket, now - window) + Multiplicity(limits, bucket)
  {
    hide Count, Prune, Entries, FirstBlocked, Multiplicity;
    assert Apply(rows, Record(limits, window, now)) == Prune(rows, now - window) + Entries(limits, now);
    var pruned, entries := Prune(rows, now - window), Entries(limits, now);
    CountConcat(pruned, entries, bucket, now - window);
    PrunedLooksTheSame(rows, bucket, now - window);
    EntriesCount(limits, now, bucket, now - window);
  }

  /** Unlike the request limiter, this one does not refuse a repeated bucket, which then overshoots. */
  lemma {:induction false} RepeatedBucketOvershoots(window: int)
    requires window >= 1
    ensures var limits := [Limit("b", 1), Limit("b", 1)];
            && Check([], limits, window, 0).Ok?
            && Count(Apply([], Record(limits, window, 0)), "b", -window) == 2
  {
    var limits := [Limit("b", 1), Limit("b", 1)];
    assert limits[1..] == [Limit("b", 1)] && limits[1..][1..] == [];
    assert limits[..1] == [Limit("b", 1)] && limits[..1][..0] == [];
    assert FirstBlocked([], limits[1..], -window) == None by {
      assert FirstBlocked([], limits[1..][1..], -window) == None;
    }
    assert FirstBlocked([], limits, -window) == None;
    assert Multiplicity(limits, "b") == 2;
    RecordAddsMultiplicity([], limits, window, 0, "b");
  }

  // ---------------------------------------------------------------- the promised waiting time

  lemma {:induction false} EarliestIsLeast(rows: seq<Entry>, bucket: string, cutoff: int)
    requires Count(rows, bucket, cutoff) > 0
    ensures cutoff <= Earliest(rows, bucket, cutoff)
    ensures Count(rows, bucket, Earliest(rows, bucket, cutoff)) == Count(rows, bucket, cutoff)
    ensures Count(rows, bucket, Earliest(rows, bucket, cutoff) + 1) < Count(rows, bucket, cutoff)
    decreases |rows|
  {
    var n := |rows| - 1;
    var init, row := rows[..n], rows[n];
    if row.bucket != bucket || row.at < cutoff {
      EarliestIsLeast(init, bucket, cutoff);
    } else if Count(init, bucket, cutoff) == 0 {
      CountFalls(init, bucket, cutoff, row.at);
      CountFalls(init, bucket, cutoff, row.at + 1);
    } else {
      EarliestIsLeast(init, bucket, cutoff);
      var f := Earliest(init, bucket, cutoff);
      if row.at < f {
        CountFalls(init, bucket, cutoff, row.at);
        CountFalls(init, bucket, row.at, f);
        CountFalls(init, bucket, cutoff, row.at + 1);
      }
    }
  }

  /**
   The reported wait is the least after which the blocking bucket passes, when nothing more is recorded, if and
   only if the failures later than the earliest one are below the limit: so always when the limit was not
   lowered or overshot in the meantime.
   */
  lemma {:induction false} RetryAfterIsLeastIff(rows: seq<Entry>, bucket: string, maximum: int, window: int, now: int)
    requires maximum >= 1 && window >= 1 && Count(rows, bucket, now - window) >= maximum
    ensures var e := Earliest(rows, bucket, now - window);
            var wait := RetryAfter(e, window, now);
            && (forall cutoff | now - window <= cutoff < now + wait - window :: Count(rows, bucket, cutoff) >= maximum)
            && (Count(rows, bucket, now + wait - window) < maximum <==> Count(rows, bucket, e + 1) < maximum)
  {
    var cutoff := now - window;
    EarliestIsLeast(rows, bucket, cutoff);
    var e := Earliest(rows, bucket, cutoff);
    var wait := RetryAfter(e, window, now);
    assert wait == e - cutoff + 1;
    forall c | cutoff <= c < now + wait - window ensures Count(rows, bucket, c) >= maximum {
      CountFalls(rows, bucket, c, e);
    }
  }

  /** At the limit itself the condition holds, so the wait is exact. */
  lemma {:induction false} RetryAfterExactAtLimit(rows: seq<Entry>, bucket: string, window: int, now: int)
    requires window >= 1 && Count(rows, bucket, now - window) >= 1
    ensures Count(rows, bucket, Earliest(rows, bucket, now - window) + 1) < Count(rows, bucket, now - window)
  {
    EarliestIsLeast(rows, bucket, now - window);
  }

  lemma {:induction false} LogIsPast(ops: seq<Operation>, bucket: string, now: int)
    requires forall i | 0 <= i < |ops| :: ops[i].now <= now
    ensures Count(Log(ops), bucket, now + 1) == 0
    decreases |ops|
  {
    hide Check, Count, Entries, Multiplicity;
    if ops == [] {
      CountNone([], bucket, now + 1);
    } else {
      var n := |ops| - 1;
      var log, entries := Log(ops[..n]), Entries(ops[n].limits, ops[n].now);
      LogIsPast(ops[..n], bucket, now);
      CountConcat(log, entries, bucket, now + 1);
      EntriesCount(ops[n].limits, ops[n].now, bucket, now + 1);
      assert Log(ops) == log || Log(ops) == log + entries || Log(ops) == log + [] == log;
    }
  }

  /** Over a regular history with one limit per bucket the reported wait of a blocked bucket is exact. */
  lemma {:induction false} RetryAfterIsExact(ops: seq<Operation>, window: int, allowance: string -> nat,
                                             bucket: string, now: int)
    requires Regular(ops, window, allowance) && window >= 1 && allowance(bucket) >= 1
    requires forall i | 0 <= i < |ops| :: ops[i].now <= now
    requires Count(Recorded(ops), bucket, now - window) >= allowance(bucket)
    ensures var rows := Recorded(ops);
            var wait := RetryAfter(Earliest(rows, bucket, now - window), window, now);
            && (forall cutoff | now - window <= cutoff < now + wait - window ::
                  Count(rows, bucket, cutoff) >= allowance(bucket))
            && Count(rows, bucket, now + wait - window) < allowance(bucket)
  {
    hide Count, Recorded, Log, Earliest;
    var rows := Recorded(ops);
    RecordedIsLog(ops);
    LogIsPast(ops, bucket, now);
    FailuresBounded(ops, window, allowance, bucket, now - window);
    RetryAfterIsLeastIff(rows, bucket, allowance(bucket), window, now);
    RetryAfterExactAtLimit(rows, bucket, window, now);
  }

  lemma {:induction false} SingleBucket(rows: seq<Entry>, l: Limit, window: int, now: int)
    requires l.maximum >= 1 && window >= 1
    ensures Check(rows, [l], window, now)
            == if Count(rows, l.bucket, now - window) < l.maximum then Ok(())
               else Err(Limited(RetryAfter(Earliest(rows, l.bucket, now - window), window, now)))
  {
    hide Count, Earliest;
    assert [l][0] == l && FirstBlocked(rows, [l][1..], now - window) == None;
  }

  lemma {:induction false} RegularRises(ops: seq<Operation>, window: int, allowance: string -> nat, next: Operation)
    requires Regular(ops, window, allowance) && next.window == window
    requires forall i | 0 <= i < |ops| :: ops[i].now <= next.now
    ensures CutoffsRise(ops + [next])
  {
    var all := ops + [next];
    assert forall i | 0 <= i < |ops| :: all[i] == ops[i];
  }

  lemma {:induction false} TableDecides(ops: seq<Operation>, window: int, allowance: string -> nat, l: Limit, t: int)
    requires Regular(ops, window, allowance) && window >= 1 && l.maximum >= 1
    requires forall i | 0 <= i < |ops| :: ops[i].now <= t
    ensures Check(Table(ops), [l], window, t) == Check(Recorded(ops), [l], window, t)
    ensures Check(Table(ops), [l], window, t)
            == if Count(Recorded(ops), l.bucket, t - window) < l.maximum then Ok(())
               else Err(Limited(RetryAfter(Earliest(Recorded(ops), l.bucket, t - window), window, t)))
  {
    hide Check, Count, Earliest, Recorded, Table, Log;
    var next := Operation.Enforce([l], window, t);
    RegularRises(ops, window, allowance, next);
    PruningNeverChangesADecision(ops, next);
    assert CutoffsRise(ops) by { RegularOnly(ops, window, allowance); }
    RecordedIsLog(ops);
    SingleBucket(Recorded(ops), l, window, t);
  }

  lemma {:induction false} RegularOnly(ops: seq<Operation>, window: int, allowance: string -> nat)
    requires Regular(ops, window, allowance)
    ensures CutoffsRise(ops)
  {
  }

  /**
   The wait that a refused caller is told, from the table as it is: while nothing more is recorded, every request
   before it ends is refused, and every later one passes.
   */
  lemma {:induction false} ToldWaitIsExact(ops: seq<Operation>, window: int, allowance: string -> nat, bucket: string,
                                           now: int, wait: int)
    requires Regular(ops, window, allowance) && window >= 1 && allowance(bucket) >= 1
    requires forall i | 0 <= i < |ops| :: ops[i].now <= now
    ensures var l := [Limit(bucket, allowance(bucket))];
            Check(Table(ops), l, window, now) == Err(Limited(wait)) ==>
              forall t | now <= t :: Check(Table(ops), l, window, t).Err? <==> t < now + wait
  {
    hide Check, Count, Recorded, Table, Earliest, RetryAfter;
    var l := Limit(bucket, allowance(bucket));
    TableDecides(ops, window, allowance, l, now);
    if Check(Table(ops), [l], window, now) == Err(Limited(wait)) {
      RetryAfterIsExact(ops, window, allowance, bucket, now);
      forall t | now <= t ensures Check(Table(ops), [l], window, t).Err? <==> t < now + wait {
        TableDecides(ops, window, allowance, l, t);
        if t >= now + wait {
          CountFalls(Recorded(ops), bucket, now + wait - window, t - window);
        }
      }
    }
  }

  // ---------------------------------------------------------------- the tables

  /** The loop that both entry points of the limiter run over their buckets. */
  method FindBlocked(rows: seq<Entry>, limits: seq<Limit>, cutoff: int) returns (blocked: Option<Limit>)
    ensures blocked == FirstBlocked(rows, limits, cutoff)
  {
    var i := 0;
    while i < |limits|
      invariant 0 <= i <= |limits|
      invariant FirstBlocked(rows, limits, cutoff) == FirstBlocked(rows, limits[i..], cutoff)
    {
      assert limits[i..][1..] == limits[i + 1..];
      if Count(rows, limits[i].bucket, cutoff) >= limits[i].maximum {
        return Some(limits[i]);
      }
      i := i + 1;
    }
    return None;
  }

  class FailureLimiter {
    var failures: seq<Entry>

    constructor ()
      ensures failures == []
    {
      failures := [];
    }

    /** Prunes, then looks at every bucket; raising inside the transaction brings the pruned rows back. */
    method Enforce(limits: seq<Limit>, window: int, now: int) returns (r: Result<(), LimitError>)
      modifies this
      ensures r == Check(old(failures), limits, window, now)
      ensures failures == Apply(old(failures), Operation.Enforce(limits, window, now))
    {
      hide Prune, Count, Earliest, FirstBlocked;
      if |limits| == 0 || (exists i | 0 <= i < |limits| :: limits[i].maximum < 1) || window < 1 {
        return Err(InvalidArgument);
      }
      var before, cutoff := failures, now - window;
      failures := Prune(failures, cutoff);
      var blocked := FindBlocked(failures, limits, cutoff);
      PruneTwice(before, cutoff, cutoff);
      CheckSame(before, failures, limits, window, now);
      match blocked {
        case None => r := Ok(());
        case Some(l) =>
          r := Err(Limited(RetryAfter(Earliest(failures, l.bucket, cutoff), window, now)));
          failures := before;
      }
    }

    method Record(limits: seq<Limit>, window: int, now: int) returns (r: Result<(), LimitError>)
      modifies this
      ensures r == Check(old(failures), limits, window, now)
      ensures failures == Apply(old(failures), Operation.Record(limits, window, now))
    {
      hide Prune, Count, Earliest, FirstBlocked;
      r := Enforce(limits, window, now);
      if r.Ok? {
        var entries := NewEntries(limits, now);
        failures := failures + entries;
      }
    }
  }

  method NewEntries(limits: seq<Limit>, now: int) returns (entries: seq<Entry>)
    ensures entries == Entries(limits, now)
  {
    entries := [];
    for i := 0 to |limits|
      invariant entries == Entries(limits[..i], now)
    {
      assert limits[..i + 1][..i] == limits[..i];
      entries := entries + [Entry(limits[i].bucket, now)];
    }
    assert limits[..|limits|] == limits;
  }
}
