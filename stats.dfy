/** The Stats collection: a time series of snapshots of the aggregate
    counts. The latest row is the one the two change handlers keep up to
    date; the monthly job (server.js) opens a new one. */
module Stats {
  import opened Common
  import opened Seqs

  /** A Stats row. Stored rows carry a creation time; the zero records the
      dashboard pads its series with carry none. */
  datatype Snapshot = Snapshot(users: int, subscription: int, views: int, createdAt: Option<int>)

  /** The `{ users: 0, subscription: 0, views: 0 }` record of the dashboard. */
  const Zero := Snapshot(0, 0, 0, None)

  /** Every row has a creation time and the rows are in creation order, so
      the last row is the one `sort({ createdAt: "desc" }).limit(1)` returns. */
  predicate Chronological(rows: seq<Snapshot>) {
    && (forall k :: 0 <= k < |rows| ==> rows[k].createdAt.Some?)
    && (forall j, k :: 0 <= j < k < |rows| ==> rows[j].createdAt.value <= rows[k].createdAt.value)
  }

  /** The latest row after the user-change handler: user count, active
      subscription count and time overwritten; the views untouched. */
  function WithUserCounts(rows: seq<Snapshot>, userCount: int, activeCount: int, now: int): seq<Snapshot>
    requires |rows| > 0
  {
    rows[|rows| - 1 := rows[|rows| - 1].(users := userCount, subscription := activeCount, createdAt := Some(now))]
  }

  /** The latest row after the course-change handler: total views and time
      overwritten; the user and subscription counts untouched. */
  function WithViews(rows: seq<Snapshot>, totalViews: int, now: int): seq<Snapshot>
    requires |rows| > 0
  {
    rows[|rows| - 1 := rows[|rows| - 1].(views := totalViews, createdAt := Some(now))]
  }

  /** The rows after the monthly job: one more row, all counters zero. */
  function WithMonthlyRow(rows: seq<Snapshot>, now: int): seq<Snapshot> {
    rows + [Snapshot(0, 0, 0, Some(now))]
  }

  /** The two recomputations touch only the latest row, and each only its
      own counters: neither can clobber the other's fields. */
  lemma RecomputationsOwnTheirFields(rows: seq<Snapshot>, userCount: int, activeCount: int, totalViews: int, now: int)
    requires |rows| > 0
    ensures var u := WithUserCounts(rows, userCount, activeCount, now);
            |u| == |rows| && u[..|rows| - 1] == rows[..|rows| - 1] && u[|rows| - 1].views == rows[|rows| - 1].views
    ensures var v := WithViews(rows, totalViews, now);
            && |v| == |rows| && v[..|rows| - 1] == rows[..|rows| - 1]
            && v[|rows| - 1].users == rows[|rows| - 1].users
            && v[|rows| - 1].subscription == rows[|rows| - 1].subscription
  {
  }

  /** Run one after the other at the same instant, the two recomputations
      give the same rows in either order. */
  lemma RecomputationsCommute(rows: seq<Snapshot>, userCount: int, activeCount: int, totalViews: int, now: int)
    requires |rows| > 0
    ensures WithViews(WithUserCounts(rows, userCount, activeCount, now), totalViews, now)
         == WithUserCounts(WithViews(rows, totalViews, now), userCount, activeCount, now)
  {
  }

  /** With a clock that does not go backwards, every change to the Stats
      collection keeps it in creation order. */
  lemma ChangesKeepChronology(rows: seq<Snapshot>, userCount: int, activeCount: int, totalViews: int, now: int)
    requires Chronological(rows)
    requires |rows| > 0 ==> rows[|rows| - 1].createdAt.value <= now
    ensures Chronological(WithMonthlyRow(rows, now))
    ensures |rows| > 0 ==> Chronological(WithUserCounts(rows, userCount, activeCount, now))
    ensures |rows| > 0 ==> Chronological(WithViews(rows, totalViews, now))
  {
    var m := WithMonthlyRow(rows, now);
    forall j, k | 0 <= j < k < |m|
      ensures m[j].createdAt.value <= m[k].createdAt.value
    {
      if k == |rows| && j < |rows| - 1 {
        assert rows[j].createdAt.value <= rows[|rows| - 1].createdAt.value;
      }
    }
    if |rows| > 0 {
      var last := |rows| - 1;
      var u := WithUserCounts(rows, userCount, activeCount, now);
      forall j, k | 0 <= j < k < |u|
        ensures u[j].createdAt.value <= u[k].createdAt.value
      {
        if k == last && j < last {
          assert rows[j].createdAt.value <= rows[last].createdAt.value;
        }
      }
      var v := WithViews(rows, totalViews, now);
      forall j, k | 0 <= j < k < |v|
        ensures v[j].createdAt.value <= v[k].createdAt.value
      {
        if k == last && j < last {
          assert rows[j].createdAt.value <= rows[last].createdAt.value;
        }
      }
    }
  }

  /** The rows `Stats.find({}).sort({ createdAt: "desc" }).limit(n)`
      returns from a collection in creation order: the newest `n`, newest
      first. */
  function NewestFirst(rows: seq<Snapshot>, n: nat): (r: seq<Snapshot>)
    ensures |r| == if |rows| < n then |rows| else n
    ensures forall k :: 0 <= k < |r| ==> r[k] == rows[|rows| - 1 - k]
  {
    Reverse(rows[|rows| - (if |rows| < n then |rows| else n)..])
  }

  /** The Stats collection. */
  class StatsCollection {
    var rows: seq<Snapshot>

    constructor ()
      ensures rows == []
    {
      rows := [];
    }
  }

  /** The job scheduled for midnight on the first of every month
      (`Stats.create({})`): a new row with zero counters, created now. */
  method OpenMonthlySnapshot(stats: StatsCollection, now: int)
    modifies stats
    ensures stats.rows == WithMonthlyRow(old(stats.rows), now)
    ensures |stats.rows| == |old(stats.rows)| + 1
  {
    stats.rows := stats.rows + [Snapshot(0, 0, 0, Some(now))];
  }
}
