/**
 * The hour-bucket walk of the report: starting one hour after the window
 * start, every bucket end time up to and including the epoch captured once
 * before the loop (cgnx-rtm-health-report.py, lines 119-129 and 232-235).
 * Times are whole seconds; the local-time string built for each bucket is
 * not modelled.
 */
module Buckets {

  /** Width of one bucket in seconds. */
  const BucketSeconds: int := 3600

  /** Reference definition: the bucket end times, earliest first. */
  function Schedule(start: int, epoch: int): seq<int>
    decreases epoch - start
  {
    if start + BucketSeconds > epoch then []
    else [start + BucketSeconds] + Schedule(start + BucketSeconds, epoch)
  }

  /**
   * What a bucket schedule is, independent of how it is computed: the i-th
   * end lies (i + 1) hours after the start, every end is at most the epoch,
   * and one more bucket would pass the epoch.
   */
  ghost predicate IsScheduleOf(start: int, epoch: int, ends: seq<int>)
  {
    (forall i :: 0 <= i < |ends| ==> ends[i] == start + BucketSeconds * (i + 1)) &&
    (forall i :: 0 <= i < |ends| ==> ends[i] <= epoch) &&
    start + BucketSeconds * (|ends| + 1) > epoch
  }

  /** The loop of lines 232-235, with `epoch` fixed before it starts. */
  method BucketEnds(start: int, epoch: int) returns (ends: seq<int>)
    ensures IsScheduleOf(start, epoch, ends)
    ensures ends == Schedule(start, epoch)
  {
    ends := [];
    var endtime := start + BucketSeconds;
    while endtime <= epoch
      invariant endtime == start + BucketSeconds * (|ends| + 1)
      invariant forall i :: 0 <= i < |ends| ==> ends[i] == start + BucketSeconds * (i + 1)
      invariant forall i :: 0 <= i < |ends| ==> ends[i] <= epoch
      invariant ends + Schedule(endtime - BucketSeconds, epoch) == Schedule(start, epoch)
      decreases epoch - endtime
    {
      ends := ends + [endtime];
      endtime := endtime + BucketSeconds;
    }
  }

  /** The reference definition meets the characterisation. */
  lemma {:induction false} ScheduleIsSchedule(start: int, epoch: int)
    ensures IsScheduleOf(start, epoch, Schedule(start, epoch))
    decreases epoch - start
  {
    if start + BucketSeconds <= epoch {
      var next := start + BucketSeconds;
      ScheduleIsSchedule(next, epoch);
      var rest := Schedule(next, epoch);
      var s := Schedule(start, epoch);
      assert s == [next] + rest;
      forall i | 0 < i < |s|
        ensures s[i] == start + BucketSeconds * (i + 1)
      {
        assert s[i] == rest[i - 1];
      }
    }
  }

  /**
   * A schedule holds floor((epoch - start) / 3600) buckets, and none when
   * the epoch lies before the start.
   */
  lemma ScheduleLength(start: int, epoch: int, ends: seq<int>)
    requires IsScheduleOf(start, epoch, ends)
    ensures |ends| == if epoch - start >= 0 then (epoch - start) / BucketSeconds else 0
  {
    if |ends| > 0 {
      assert ends[|ends| - 1] <= epoch;
    }
  }

  /** The characterisation pins the schedule down: at most one sequence meets it. */
  lemma ScheduleIsUnique(start: int, epoch: int, a: seq<int>, b: seq<int>)
    requires IsScheduleOf(start, epoch, a)
    requires IsScheduleOf(start, epoch, b)
    ensures a == b
  {
    ScheduleLength(start, epoch, a);
    ScheduleLength(start, epoch, b);
  }

  /**
   * With the window start `hours` hours before the epoch, as on line 127,
   * the loop queries exactly `hours` buckets (none when `hours` is not
   * positive) and the last bucket ends exactly at the epoch.
   */
  lemma WindowSchedule(epoch: int, hours: int)
    ensures var s := Schedule(epoch - BucketSeconds * hours, epoch);
      |s| == (if hours > 0 then hours else 0) &&
      (hours > 0 ==> s[|s| - 1] == epoch)
  {
    var start := epoch - BucketSeconds * hours;
    ScheduleIsSchedule(start, epoch);
    var s := Schedule(start, epoch);
    if |s| > 0 {
      assert s[|s| - 1] == start + BucketSeconds * |s| <= epoch;
    }
  }
}
