/**
 Moving the failure log into the target store, which keeps one fixed window per bucket instead of a log
 (`migrate_rate_limits`): the window opens with the oldest failure and counts all of them.
 */
module RateLimitMigration {
  import opened Prelude
  import opened RateLimits
  import opened RequestQuota

  /** The times at which a bucket failed, in the order of the rows. */
  function Times(rows: seq<Entry>, bucket: string): seq<int> {
    if rows == [] then []
    else Times(rows[..|rows| - 1], bucket)
         + if rows[|rows| - 1].bucket == bucket then [rows[|rows| - 1].at] else []
  }

  predicate IsMin(m: int, times: seq<int>) {
    m in times && forall t | t in times :: m <= t
  }

  ghost predicate Grouped(rows: seq<Entry>, groups: map<string, seq<int>>) {
    forall b :: if Times(rows, b) == [] then b !in groups else b in groups && groups[b] == Times(rows, b)
  }

  /** One window per bucket that ever failed: from its oldest failure, counting every failure. */
  ghost predicate Migrated(rows: seq<Entry>, target: Quotas) {
    forall b ::
      if Times(rows, b) == [] then b !in target
      else b in target && IsMin(target[b].start, Times(rows, b)) && target[b].count == |Times(rows, b)|
  }

  method Group(rows: seq<Entry>) returns (groups: map<string, seq<int>>)
    ensures Grouped(rows, groups)
  {
    groups := map[];
    for i := 0 to |rows|
      invariant Grouped(rows[..i], groups)
    {
      assert rows[..i + 1][..i] == rows[..i];
      var b := rows[i].bucket;
      groups := groups[b := (if b in groups then groups[b] else []) + [rows[i].at]];
    }
    assert rows[..|rows|] == rows;
  }

  method Min(times: seq<int>) returns (m: int)
    requires times != []
    ensures IsMin(m, times)
  {
    m := times[0];
    for i := 1 to |times|
      invariant m in times && forall k | 0 <= k < i :: m <= times[k]
    {
      if times[i] < m {
        m := times[i];
      }
    }
  }

  /** Returns the target's rows with the number of failures read and of windows written. */
  method MigrateRateLimits(rows: seq<Entry>) returns (target: Quotas, read: nat, written: nat)
    ensures Migrated(rows, target)
    ensures read == |rows| && written == |target|
  {
    var groups := Group(rows);
    target := map[];
    var rest := groups.Keys;
    while rest != {}
      invariant rest <= groups.Keys && target.Keys == groups.Keys - rest
      invariant forall b | b in target :: IsMin(target[b].start, groups[b]) && target[b].count == |groups[b]|
    {
      var b :| b in rest;
      assert Times(rows, b) != [];
      var start := Min(groups[b]);
      target := target[b := Window(start, |groups[b]|)];
      rest := rest - {b};
    }
    read, written := |rows|, |target|;
  }

  lemma {:induction false} TimesCount(rows: seq<Entry>, bucket: string, cutoff: int)
    ensures Count(rows, bucket, cutoff) <= |Times(rows, bucket)|
    ensures Count(rows, bucket, cutoff) == |Times(rows, bucket)|
            <==> forall t | t in Times(rows, bucket) :: t >= cutoff
    decreases |rows|
  {
    if rows != [] {
      var init, last := Times(rows[..|rows| - 1], bucket), rows[|rows| - 1];
      TimesCount(rows[..|rows| - 1], bucket, cutoff);
      if last.bucket == bucket {
        assert Times(rows, bucket) == init + [last.at];
        assert last.at in Times(rows, bucket);
        assert forall t :: t in Times(rows, bucket) <==> t in init || t == last.at;
      } else {
        assert Times(rows, bucket) == init;
      }
    }
  }

  /**
   Right after the migration the target refuses a bucket if and only if the source would have and none of the
   bucket's rows is as old as a whole window. So nothing changes for a log that was just pruned, except when
   a failure is exactly one window old: the source still counts it, the target lets the whole window go.
   */
  lemma {:induction false} MigratedBlocksIff(rows: seq<Entry>, target: Quotas, l: Limit, window: int, now: int)
    requires Migrated(rows, target) && l.maximum >= 1
    ensures Blocked(target, l, window, now)
            <==> Count(rows, l.bucket, now - window) >= l.maximum
                 && forall t | t in Times(rows, l.bucket) :: t > now - window
  {
    TimesCount(rows, l.bucket, now - window);
    TimesCount(rows, l.bucket, now - window + 1);
    CountFalls(rows, l.bucket, now - window, now - window + 1);
  }

  /** A failure exactly one window old: the source still refuses its bucket, and what it migrates to does not. */
  lemma {:induction false} BoundaryFailureIsForgotten(bucket: string, window: int, at: int, target: Quotas)
    requires window >= 1 && Migrated([Entry(bucket, at)], target)
    ensures var l := Limit(bucket, 1);
            && Check([Entry(bucket, at)], [l], window, at + window) == Err(Limited(1))
            && !Blocked(target, l, window, at + window)
  {
    var rows, l := [Entry(bucket, at)], Limit(bucket, 1);
    assert rows[..0] == [];
    assert Count(rows, bucket, at) == 1 && Earliest(rows, bucket, at) == at && Times(rows, bucket) == [at];
    hide Count, Earliest, Times, Migrated;
    SingleBucket(rows, l, window, at + window);
    MigratedBlocksIff(rows, target, l, window, at + window);
    assert at in [at];
  }
}
