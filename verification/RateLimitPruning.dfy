/**
 When the pruning of the failure log can be noticed. The table is compared with everything that was ever recorded;
 what was dropped matters to the next decision exactly if it is not older than the next cutoff.
 */
module RateLimitPruning {
  import opened Prelude
  import opened RateLimits

  predicate Accepted(ops: seq<Operation>, i: nat)
    requires i < |ops|
  {
    Check(Table(ops[..i]), ops[i].limits, ops[i].window, ops[i].now).Ok?
  }

  function Cutoff(op: Operation): int {
    op.now - op.window
  }

  /** An accepted recording at or after the cutoff was followed by an accepted call that prunes beyond it. */
  ghost predicate ForgetsSince(ops: seq<Operation>, cutoff: int) {
    exists i, j ::
      && 0 <= i < j < |ops| && ops[i].Record? && Accepted(ops, i) && Accepted(ops, j)
      && cutoff <= ops[i].now < Cutoff(ops[j])
  }

  /** Whatever the limits, window and time, as long as they look back to this cutoff, table and record agree. */
  ghost predicate DecidesAlike(ops: seq<Operation>, cutoff: int) {
    forall limits: seq<Limit>, window: int, now: int | now - window == cutoff ::
      Check(Table(ops), limits, window, now) == Check(Recorded(ops), limits, window, now)
  }

  // ---------------------------------------------------------------- what was dropped

  function Older(rows: seq<Entry>, cutoff: int): seq<Entry> {
    if rows == [] then []
    else Older(rows[..|rows| - 1], cutoff)
         + if rows[|rows| - 1].at < cutoff then [rows[|rows| - 1]] else []
  }

  /** The rows that accepted calls have pruned so far. */
  function Dropped(ops: seq<Operation>): seq<Entry> {
    if ops == [] then []
    else
      Dropped(ops[..|ops| - 1])
      + if Accepted(ops, |ops| - 1) then Older(Table(ops[..|ops| - 1]), Cutoff(ops[|ops| - 1])) else []
  }

  predicate AllOlder(rows: seq<Entry>, cutoff: int) {
    forall i | 0 <= i < |rows| :: rows[i].at < cutoff
  }

  lemma {:induction false} StepSplits(rows: seq<Entry>, k: int)
    requires rows != []
    ensures var n := |rows| - 1;
            var init, last := rows[..n], [rows[n]];
            && rows == init + last
            && Prune(rows, k) == Prune(init, k) + (if rows[n].at < k then [] else last)
            && Older(rows, k) == Older(init, k) + (if rows[n].at < k then last else [])
  {
  }

  lemma {:induction false} PruneSplits(rows: seq<Entry>, bucket: string, k: int, c: int)
    ensures Count(rows, bucket, c) == Count(Prune(rows, k), bucket, c) + Count(Older(rows, k), bucket, c)
    decreases |rows|
  {
    hide Count, Prune, Older;
    if rows == [] {
      NothingSplits(bucket, k, c);
    } else {
      var n := |rows| - 1;
      var init, last := rows[..n], [rows[n]];
      PruneSplits(init, bucket, k, c);
      StepSplits(rows, k);
      NothingSplits(bucket, k, c);
      CountConcat(init, last, bucket, c);
      CountConcat(Prune(init, k), if rows[n].at < k then [] else last, bucket, c);
      CountConcat(Older(init, k), if rows[n].at < k then last else [], bucket, c);
    }
  }

  lemma {:induction false} NothingSplits(bucket: string, k: int, c: int)
    ensures Count([], bucket, c) == 0 && Prune([], k) == [] && Older([], k) == []
  {
  }

  lemma {:induction false} SplitMembers(rows: seq<Entry>, k: int, e: Entry)
    ensures e in Prune(rows, k) <==> e in rows && e.at >= k
    ensures e in Older(rows, k) <==> e in rows && e.at < k
    decreases |rows|
  {
    if rows != [] {
      var n := |rows| - 1;
      SplitMembers(rows[..n], k, e);
      assert rows == rows[..n] + [rows[n]];
    }
  }

  lemma {:induction false} AllOlderConcat(a: seq<Entry>, b: seq<Entry>, c: int)
    ensures AllOlder(a + b, c) <==> AllOlder(a, c) && AllOlder(b, c)
  {
    forall i | 0 <= i < |b| ensures (a + b)[|a| + i] == b[i] {}
    forall i | 0 <= i < |a| ensures (a + b)[i] == a[i] {}
  }

  /** Pruning what is older than `c` anyway is not seen from `c`. */
  lemma {:induction false} PruneOlderFirst(rows: seq<Entry>, k: int, c: int)
    requires AllOlder(Older(rows, k), c)
    ensures Prune(Prune(rows, k), c) == Prune(rows, c)
    decreases |rows|
  {
    if rows != [] {
      var n := |rows| - 1;
      var last := [rows[n]];
      AllOlderConcat(Older(rows[..n], k), if rows[n].at < k then last else [], c);
      PruneOlderFirst(rows[..n], k, c);
      hide AllOlder;
      assert rows[n].at < k ==> rows[n].at < c by { LastIsOlder(last, c); }
      PruneConcat(Prune(rows[..n], k), last, c);
      assert last[..0] == [] && Prune(rows[..n], k) + [] == Prune(rows[..n], k);
    }
  }

  lemma {:induction false} LastIsOlder(last: seq<Entry>, c: int)
    requires |last| == 1
    ensures AllOlder(last, c) ==> last[0].at < c
  {
  }

  /** What an operation that is accepted records. */
  function New(op: Operation): seq<Entry> {
    if op.Record? then Entries(op.limits, op.now) else []
  }

  /** One operation as the table, the record and the dropped rows see it. */
  lemma {:induction false} StepOf(ops: seq<Operation>)
    requires ops != []
    ensures var n := |ops| - 1;
            var init, op := ops[..n], ops[n];
            if Accepted(ops, n) then
              && Table(ops) == Prune(Table(init), Cutoff(op)) + New(op)
              && Recorded(ops) == Recorded(init) + New(op)
              && Dropped(ops) == Dropped(init) + Older(Table(init), Cutoff(op))
            else
              Table(ops) == Table(init) && Recorded(ops) == Recorded(init) && Dropped(ops) == Dropped(init)
  {
    hide Check, Entries, Prune, Older;
    var n := |ops| - 1;
    assert Recorded(ops[..n]) + [] == Recorded(ops[..n]) && Dropped(ops[..n]) + [] == Dropped(ops[..n]);
  }

  /** Together with what was dropped, the table counts everything recorded. */
  lemma {:induction false} NothingElseLost(ops: seq<Operation>, bucket: string, c: int)
    ensures Count(Recorded(ops), bucket, c) == Count(Table(ops), bucket, c) + Count(Dropped(ops), bucket, c)
    decreases |ops|
  {
    if ops == [] {
      assert Count([], bucket, c) == 0;
    } else {
      hide Accepted, Table, Recorded, Dropped, Count, New, Prune, Older;
      var n := |ops| - 1;
      var init, op := ops[..n], ops[n];
      NothingElseLost(init, bucket, c);
      StepOf(ops);
      if Accepted(ops, n) {
        PruneSplits(Table(init), bucket, Cutoff(op), c);
        CountConcat(Prune(Table(init), Cutoff(op)), New(op), bucket, c);
        CountConcat(Recorded(init), New(op), bucket, c);
        CountConcat(Dropped(init), Older(Table(init), Cutoff(op)), bucket, c);
      }
    }
  }

  /** If nothing at or after the cutoff was dropped, the table is the record as seen from there, order included. */
  lemma {:induction false} NothingForgotten(ops: seq<Operation>, c: int)
    requires AllOlder(Dropped(ops), c)
    ensures Prune(Table(ops), c) == Prune(Recorded(ops), c)
    decreases |ops|
  {
    if ops != [] {
      hide Accepted, Table, Recorded, Dropped, New, Prune, Older, AllOlder;
      var n := |ops| - 1;
      var init, op := ops[..n], ops[n];
      StepOf(ops);
      if Accepted(ops, n) {
        AllOlderConcat(Dropped(init), Older(Table(init), Cutoff(op)), c);
        PruneOlderFirst(Table(init), Cutoff(op), c);
        PruneConcat(Prune(Table(init), Cutoff(op)), New(op), c);
        PruneConcat(Recorded(init), New(op), c);
      }
      NothingForgotten(init, c);
    }
  }

  lemma {:induction false} CountsMember(rows: seq<Entry>, e: Entry, c: int)
    requires e in rows && e.at >= c
    ensures Count(rows, e.bucket, c) >= 1
    decreases |rows|
  {
    var n := |rows| - 1;
    if rows[n] != e {
      assert rows == rows[..n] + [rows[n]];
      CountsMember(rows[..n], e, c);
    }
  }

  lemma {:induction false} AlikeIffNothingForgotten(ops: seq<Operation>, c: int)
    ensures DecidesAlike(ops, c) <==> AllOlder(Dropped(ops), c)
  {
    hide Check, Count, Table, Recorded, Dropped;
    if AllOlder(Dropped(ops), c) {
      NothingForgotten(ops, c);
      forall limits: seq<Limit>, window: int, now: int | now - window == c
        ensures Check(Table(ops), limits, window, now) == Check(Recorded(ops), limits, window, now)
      {
        CheckSame(Table(ops), Recorded(ops), limits, window, now);
      }
    } else {
      var i :| 0 <= i < |Dropped(ops)| && Dropped(ops)[i].at >= c;
      var e := Dropped(ops)[i];
      CountsMember(Dropped(ops), e, c);
      NothingElseLost(ops, e.bucket, c);
      var limits := [Limit(e.bucket, Count(Recorded(ops), e.bucket, c))];
      OneLimit(Table(ops), limits[0], c);
      OneLimit(Recorded(ops), limits[0], c);
      assert Check(Table(ops), limits, 1, c + 1) != Check(Recorded(ops), limits, 1, c + 1);
    }
  }

  lemma {:induction false} OneLimit(rows: seq<Entry>, l: Limit, c: int)
    requires l.maximum >= 1
    ensures Check(rows, [l], 1, c + 1).Ok? <==> Count(rows, l.bucket, c) < l.maximum
  {
    hide Count;
    NotBlocked(rows, [l], c);
    assert [l][0] == l;
  }

  // ---------------------------------------------------------------- and when that happens

  /** Everything recorded comes from an accepted recording at its time, and is still in the table or was dropped. */
  lemma {:induction false} RecordedMembers(ops: seq<Operation>, e: Entry)
    ensures e in Recorded(ops) <==> e in Table(ops) || e in Dropped(ops)
    decreases |ops|
  {
    if ops != [] {
      hide Accepted, Table, Recorded, Dropped, New, Prune, Older;
      var n := |ops| - 1;
      RecordedMembers(ops[..n], e);
      StepOf(ops);
      SplitMembers(Table(ops[..n]), Cutoff(ops[n]), e);
    }
  }

  lemma {:induction false} EntriesMembers(limits: seq<Limit>, now: int)
    ensures limits != [] ==> Entries(limits, now) != []
    ensures forall i | 0 <= i < |Entries(limits, now)| :: Entries(limits, now)[i].at == now
  {
    EntriesCount(limits, now, "", 0);
  }

  lemma {:induction false} RecordedFrom(ops: seq<Operation>, e: Entry) returns (i: nat)
    requires e in Recorded(ops)
    ensures i < |ops| && ops[i].Record? && Accepted(ops, i) && ops[i].now == e.at
    decreases |ops|
  {
    hide Check, Entries;
    var n := |ops| - 1;
    if e in Recorded(ops[..n]) {
      i := RecordedFrom(ops[..n], e);
      assert ops[..n][..i] == ops[..i];
    } else {
      EntriesMembers(ops[n].limits, ops[n].now);
      i := n;
    }
  }

  lemma {:induction false} RecordedAfter(ops: seq<Operation>, i: nat, j: nat) returns (e: Entry)
    requires i < j <= |ops| && ops[i].Record? && Accepted(ops, i)
    ensures e in Recorded(ops[..j]) && e.at == ops[i].now
    decreases j
  {
    hide Entries, Table;
    if j == i + 1 {
      assert ops[..j][..i] == ops[..i];
      EntriesMembers(ops[i].limits, ops[i].now);
      e := Entries(ops[i].limits, ops[i].now)[0];
    } else {
      assert ops[..j][..j - 1] == ops[..j - 1];
      e := RecordedAfter(ops, i, j - 1);
    }
  }

  lemma {:induction false} DroppedGrows(ops: seq<Operation>, j: nat, e: Entry)
    requires j <= |ops| && e in Dropped(ops[..j])
    ensures e in Dropped(ops)
    decreases |ops| - j
  {
    hide Check, Table, Older;
    if j < |ops| {
      assert ops[..j + 1][..j] == ops[..j];
      DroppedGrows(ops, j + 1, e);
    } else {
      assert ops[..j] == ops;
    }
  }

  lemma {:induction false} DroppedBy(ops: seq<Operation>, e: Entry) returns (j: nat)
    requires e in Dropped(ops)
    ensures j < |ops| && Accepted(ops, j) && e in Table(ops[..j]) && e.at < Cutoff(ops[j])
    decreases |ops|
  {
    hide Check, Table, Older;
    var n := |ops| - 1;
    if e in Dropped(ops[..n]) {
      j := DroppedBy(ops[..n], e);
      assert ops[..n][..j] == ops[..j];
    } else {
      SplitMembers(Table(ops[..n]), Cutoff(ops[n]), e);
      j := n;
    }
  }

  lemma {:induction false} ForgottenIff(ops: seq<Operation>, c: int)
    ensures AllOlder(Dropped(ops), c) <==> !ForgetsSince(ops, c)
  {
    hide Check, Table, Recorded, Dropped, Older, Prune;
    if !AllOlder(Dropped(ops), c) {
      var k :| 0 <= k < |Dropped(ops)| && Dropped(ops)[k].at >= c;
      var e := Dropped(ops)[k];
      var j := DroppedBy(ops, e);
      RecordedMembers(ops[..j], e);
      var i := RecordedFrom(ops[..j], e);
      assert ops[..j][..i] == ops[..i];
      assert Accepted(ops, i) && ops[i].now == e.at;
    }
    if ForgetsSince(ops, c) {
      var i, j :| 0 <= i < j < |ops| && ops[i].Record? && Accepted(ops, i) && Accepted(ops, j)
                  && c <= ops[i].now < Cutoff(ops[j]);
      var e := RecordedAfter(ops, i, j);
      RecordedMembers(ops[..j], e);
      if e in Dropped(ops[..j]) {
        DroppedGrows(ops, j, e);
      } else {
        DroppedNow(ops, j, e);
        DroppedGrows(ops, j + 1, e);
      }
      assert exists k :: 0 <= k < |Dropped(ops)| && Dropped(ops)[k] == e;
    }
  }

  lemma {:induction false} DroppedNow(ops: seq<Operation>, j: nat, e: Entry)
    requires j < |ops| && Accepted(ops, j) && e in Table(ops[..j]) && e.at < Cutoff(ops[j])
    ensures e in Dropped(ops[..j + 1])
  {
    hide Check, Table, Older;
    assert ops[..j + 1][..j] == ops[..j];
    SplitMembers(Table(ops[..j]), Cutoff(ops[j]), e);
  }

  /**
   Pruning is invisible to every decision that looks back to a cutoff if and only if no accepted recording at or
   after this cutoff was followed by an accepted call with a cutoff beyond that recording.
   */
  lemma {:induction false} PruningInvisibleIff(ops: seq<Operation>, cutoff: int)
    ensures DecidesAlike(ops, cutoff) <==> !ForgetsSince(ops, cutoff)
  {
    AlikeIffNothingForgotten(ops, cutoff);
    ForgottenIff(ops, cutoff);
  }

  // ---------------------------------------------------------------- repeated buckets

  /** An accepted recording leaves a bucket above one of its limits exactly if count and repetitions exceed it. */
  lemma {:induction false} OvershootsIff(rows: seq<Entry>, limits: seq<Limit>, window: int, now: int, k: nat)
    requires Check(rows, limits, window, now).Ok? && k < |limits|
    ensures var l := limits[k];
            Count(Apply(rows, Record(limits, window, now)), l.bucket, now - window) > l.maximum
            <==> Count(rows, l.bucket, now - window) + Multiplicity(limits, l.bucket) > l.maximum
  {
    hide Count, Apply, Multiplicity, Check;
    RecordAddsMultiplicity(rows, limits, window, now, limits[k].bucket);
  }

  ghost predicate Overshoots(rows: seq<Entry>, limits: seq<Limit>, window: int, now: int) {
    && Check(rows, limits, window, now).Ok?
    && exists k :: 0 <= k < |limits|
                   && Count(Apply(rows, Record(limits, window, now)), limits[k].bucket, now - window) > limits[k].maximum
  }

  lemma {:induction false} SameFailures(bucket: string, now: int, n: nat, other: string, cutoff: int)
    requires cutoff <= now
    ensures Count(seq(n, _ => Entry(bucket, now)), other, cutoff) == if other == bucket then n else 0
    decreases n
  {
    var rows := seq(n, _ => Entry(bucket, now));
    if n > 0 {
      assert rows[..n - 1] == seq(n - 1, _ => Entry(bucket, now));
      SameFailures(bucket, now, n - 1, other, cutoff);
    }
  }

  /**
   With one limit per bucket, a call can ever record more than a limit allows if and only if it names a bucket
   twice.
   */
  lemma {:induction false} CanOvershootIff(limits: seq<Limit>, window: int, now: int, allowance: string -> int)
    requires ValidLimits(limits, window)
    requires forall k | 0 <= k < |limits| :: limits[k].maximum == allowance(limits[k].bucket)
    ensures (exists rows :: Overshoots(rows, limits, window, now))
            <==> exists k :: 0 <= k < |limits| && Multiplicity(limits, limits[k].bucket) >= 2
  {
    hide Count, Apply, Multiplicity, FirstBlocked, Earliest;
    if exists rows :: Overshoots(rows, limits, window, now) {
      var rows :| Overshoots(rows, limits, window, now);
      var k :| 0 <= k < |limits|
               && Count(Apply(rows, Record(limits, window, now)), limits[k].bucket, now - window) > limits[k].maximum;
      OvershootsIff(rows, limits, window, now, k);
      NotBlocked(rows, limits, now - window);
      assert Count(rows, limits[k].bucket, now - window) < limits[k].maximum;
      assert Multiplicity(limits, limits[k].bucket) >= 2;
    }
    if k :| 0 <= k < |limits| && Multiplicity(limits, limits[k].bucket) >= 2 {
      var l := limits[k];
      var rows := seq(l.maximum - 1, _ => Entry(l.bucket, now));
      forall i | 0 <= i < |limits| ensures Count(rows, limits[i].bucket, now - window) < limits[i].maximum {
        SameFailures(l.bucket, now, l.maximum - 1, limits[i].bucket, now - window);
      }
      NotBlocked(rows, limits, now - window);
      SameFailures(l.bucket, now, l.maximum - 1, l.bucket, now - window);
      OvershootsIff(rows, limits, window, now, k);
      assert Overshoots(rows, limits, window, now);
    }
  }
}
