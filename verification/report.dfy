/**
 * The report run (cgnx-rtm-health-report.py, lines 119-135 and 228-306):
 * the module-level counters, the open CSV file and the last fetched flow
 * records become the state of a `Report` object; the hour-bucket loop,
 * the per-bucket fetch and the classification of its items become
 * methods. `BucketStep` and `Sweep` state on values what one bucket, and a
 * whole sequence of buckets, does to that state.
 */
module HealthReport {
  import opened Wrappers
  import opened Records
  import opened Output
  import opened Classifier
  import Buckets

  /** The input variables of lines 32-47. */
  datatype Config = Config(
    siteName: string,
    appName: string,
    hoursOfData: int,
    gmtMinus: int,
    limits: Thresholds)

  const Defaults: Config :=
    Config("<put exact site name here>", "rtp", 4, 5, Thresholds(3.0, 10000))

  /** The content of a successful flows_monitor reply: its embedded status and its flow items. */
  datatype Payload = Payload(statusCode: int, items: seq<Flow>)

  /** The outcome of one flows_monitor call; the error body is only logged. */
  datatype FetchResult = Fetched(content: Payload) | FetchFailed

  /** The report's state between buckets: counters, file lines, and `flow_records`. */
  datatype Snapshot = Snapshot(totals: Tally, lines: seq<Line>, records: Option<Payload>)

  /** After the header is written and before the first bucket. */
  const Initial: Snapshot := Snapshot(NoFlows, [HeaderLine(Header)], None)

  /** The epoch the run compares bucket ends against: the clock shifted by `gmtMinus` hours (line 125). */
  function WindowEnd(cfg: Config, clockSeconds: int): int
  {
    clockSeconds + cfg.gmtMinus * Buckets.BucketSeconds
  }

  /** `hoursOfData` hours before the window end (lines 120 and 127). */
  function WindowStart(cfg: Config, clockSeconds: int): int
  {
    WindowEnd(cfg, clockSeconds) - Buckets.BucketSeconds * cfg.hoursOfData
  }

  /**
   * With the script's input variables (4 hours of data), a run queries
   * exactly four buckets whatever the clock says, the last one ending at
   * the window end.
   */
  lemma DefaultsQueryFourBuckets(clockSeconds: int)
    ensures var ends := Buckets.Schedule(WindowStart(Defaults, clockSeconds), WindowEnd(Defaults, clockSeconds));
      |ends| == 4 && ends[3] == WindowEnd(Defaults, clockSeconds)
  {
    Buckets.WindowSchedule(WindowEnd(Defaults, clockSeconds), Defaults.hoursOfData);
  }

  /**
   * `flow_records` after a fetch (lines 243-248): a reply replaces it, a
   * failure leaves whatever the previous bucket stored.
   */
  function Effective(last: Option<Payload>, r: FetchResult): Option<Payload>
  {
    match r
    case Fetched(p) => Some(p)
    case FetchFailed => last
  }

  /**
   * One bucket (lines 243-299). `None` is the NameError raised on line 256
   * when no fetch has succeeded yet; a status other than 200 changes
   * nothing else.
   */
  function BucketStep(s: Snapshot, r: FetchResult, th: Thresholds): Option<Snapshot>
  {
    match Effective(s.records, r)
    case None => None
    case Some(p) =>
      if p.statusCode == 200 then
        Some(Snapshot(ItemsTally(s.totals, p.items, th), s.lines + ItemsLines(p.items, th), Some(p)))
      else
        Some(s.(records := Some(p)))
  }

  /** The buckets in order, stopping at the first NameError. */
  function Sweep(s: Snapshot, rs: seq<FetchResult>, th: Thresholds): Option<Snapshot>
  {
    if rs == [] then Some(s)
    else
      match Sweep(s, rs[..|rs| - 1], th)
      case None => None
      case Some(prev) => BucketStep(prev, rs[|rs| - 1], th)
  }

  /** The reply the run gets for each bucket end time. */
  function Responses(respond: int -> FetchResult, ends: seq<int>): (rs: seq<FetchResult>)
    ensures |rs| == |ends|
    ensures forall i :: 0 <= i < |ends| ==> rs[i] == respond(ends[i])
  {
    if ends == [] then [] else Responses(respond, ends[..|ends| - 1]) + [respond(ends[|ends| - 1])]
  }

  /**
   * A reply with status 200 adds exactly its items to `count` and the
   * matching rows to the file; any other status, and an empty item list,
   * leave counters and file as they were. Either way the reply becomes the
   * stored `flow_records`.
   */
  lemma StatusGate(s: Snapshot, p: Payload, th: Thresholds)
    ensures BucketStep(s, Fetched(p), th).Some?
    ensures BucketStep(s, Fetched(p), th).value.records == Some(p)
    ensures var next := BucketStep(s, Fetched(p), th).value;
      (p.statusCode == 200 ==> next.totals.count == s.totals.count + |p.items|) &&
      (p.statusCode != 200 || p.items == [] ==> next.totals == s.totals && next.lines == s.lines)
  {
    ItemsAccounting(s.totals, p.items, th);
  }

  /**
   * A failed fetch after an earlier success re-processes the previous
   * bucket's items: the same effect as receiving that reply again.
   */
  lemma FailedFetchReplaysLast(s: Snapshot, th: Thresholds)
    requires s.records.Some?
    ensures BucketStep(s, FetchFailed, th) == BucketStep(s, Fetched(s.records.value), th)
    ensures BucketStep(s, FetchFailed, th).Some?
  {
  }

  /**
   * From the initial state the run fails exactly when its first fetch
   * fails; after any bucket that did not fail, `flow_records` is bound.
   */
  lemma {:induction false} SweepFailsOnlyOnFirstBucket(rs: seq<FetchResult>, th: Thresholds)
    ensures Sweep(Initial, rs, th).None? <==> |rs| > 0 && rs[0].FetchFailed?
    ensures |rs| > 0 && Sweep(Initial, rs, th).Some? ==> Sweep(Initial, rs, th).value.records.Some?
  {
    if rs != [] {
      var init := rs[..|rs| - 1];
      SweepFailsOnlyOnFirstBucket(init, th);
      if init != [] {
        assert init[0] == rs[0];
      }
    }
  }

  /** Once a prefix of the buckets has failed, the whole sequence has. */
  lemma {:induction false} SweepStaysFailed(s: Snapshot, rs: seq<FetchResult>, k: nat, th: Thresholds)
    requires k <= |rs|
    requires Sweep(s, rs[..k], th).None?
    ensures Sweep(s, rs, th).None?
    decreases |rs|
  {
    if k < |rs| {
      var init := rs[..|rs| - 1];
      assert init[..k] == rs[..k];
      SweepStaysFailed(s, init, k, th);
    } else {
      assert rs[..k] == rs;
    }
  }

  /** Every bucket keeps the file and the counters in step. */
  lemma {:induction false} SweepKeepsAccounted(s: Snapshot, rs: seq<FetchResult>, th: Thresholds)
    requires Accounted(s.totals, s.lines)
    ensures Sweep(s, rs, th).Some? ==>
      Accounted(Sweep(s, rs, th).value.totals, Sweep(s, rs, th).value.lines)
  {
    if rs != [] {
      var init := rs[..|rs| - 1];
      SweepKeepsAccounted(s, init, th);
      match Sweep(s, init, th)
      case None =>
      case Some(prev) =>
        match Effective(prev.records, rs[|rs| - 1])
        case None =>
        case Some(p) =>
          if p.statusCode == 200 {
            ItemsKeepAccounted(prev.totals, prev.lines, p.items, th);
          }
    }
  }

  /**
   * The script's global state: the five counters (lines 22-26), the lines
   * written to the open file `f`, `flow_records`, and whether the summary
   * trailer has been written.
   */
  class Report {
    const limits: Thresholds
    const fileName: string
    var count: int
    var pls2cle3: int
    var plc2sle3: int
    var pls2cg3: int
    var plc2sg3: int
    var lines: seq<Line>
    var flowRecords: Option<Payload>
    var finished: bool

    function Totals(): Tally
      reads this
    {
      Tally(count, pls2cle3, plc2sle3, pls2cg3, plc2sg3)
    }

    function State(): Snapshot
      reads this
    {
      Snapshot(Totals(), lines, flowRecords)
    }

    /** Before the trailer the file is accounted for; afterwards the trailer repeats the counters. */
    ghost predicate Valid()
      reads this
    {
      if finished then
        |lines| >= 2 && Accounted(Totals(), lines[..|lines| - 1]) &&
        lines[|lines| - 1] == SummaryLine(Totals(), limits.minCallDurationMs)
      else
        Accounted(Totals(), lines)
    }

    /** Opens the file (line 135) and writes the header (line 229); all counters start at 0. */
    constructor (limits: Thresholds, fileName: string)
      ensures Valid() && !finished
      ensures this.limits == limits && this.fileName == fileName
      ensures State() == Initial
    {
      this.limits := limits;
      this.fileName := fileName;
      count, pls2cle3, plc2sle3, pls2cg3, plc2sg3 := 0, 0, 0, 0, 0;
      lines := [HeaderLine(Header)];
      flowRecords := None;
      finished := false;
    }

    /**
     * One direction's block of the item loop (lines 270-281 for s2c,
     * 284-297 for c2s): null is skipped, a loss at or below the threshold
     * bumps the direction's LE counter, a short call is only logged, and
     * otherwise the flow's row is written and the G counter bumped.
     */
    method JudgeDirection(flow: Flow, d: Direction)
      modifies this
      ensures Totals() == DirectionStep(old(Totals()), d, JudgeFlow(flow, d, limits))
      ensures lines == old(lines) + DirectionLines(flow, JudgeFlow(flow, d, limits))
      ensures flowRecords == old(flowRecords) && finished == old(finished)
    {
      var maxLoss := MaxLoss(flow, d);
      if maxLoss.Some? {
        if maxLoss.value <= limits.maxPl {
          if d == S2C { pls2cle3 := pls2cle3 + 1; } else { plc2sle3 := plc2sle3 + 1; }
        } else if flow.endMs - flow.startMs <= limits.minCallDurationMs {
          // too short: only logged
        } else {
          lines := lines + [DetailLine(FlowRow(flow))];
          if d == S2C { pls2cg3 := pls2cg3 + 1; } else { plc2sg3 := plc2sg3 + 1; }
        }
      }
    }

    /** The body of the item loop (lines 259-299): s2c, then c2s, then `count += 1`. */
    method HandleFlow(flow: Flow)
      requires Valid() && !finished
      modifies this
      ensures Valid() && !finished
      ensures Totals() == FlowTally(old(Totals()), flow, limits)
      ensures lines == old(lines) + FlowLines(flow, limits)
      ensures flowRecords == old(flowRecords)
    {
      FlowKeepsAccounted(Totals(), lines, flow, limits);
      JudgeDirection(flow, S2C);
      JudgeDirection(flow, C2S);
      count := count + 1;
    }

    /** The item loop of line 258. */
    method HandleItems(items: seq<Flow>)
      requires Valid() && !finished
      modifies this
      ensures Valid() && !finished
      ensures Totals() == ItemsTally(old(Totals()), items, limits)
      ensures lines == old(lines) + ItemsLines(items, limits)
      ensures flowRecords == old(flowRecords)
    {
      for i := 0 to |items|
        invariant Valid() && !finished
        invariant Totals() == ItemsTally(old(Totals()), items[..i], limits)
        invariant lines == old(lines) + ItemsLines(items[..i], limits)
        invariant flowRecords == old(flowRecords)
      {
        assert items[..i + 1][..i] == items[..i];
        HandleFlow(items[i]);
      }
      assert items[..|items|] == items;
    }

    /**
     * One fetched bucket (lines 243-299). Returns true when line 256 raises
     * NameError because no fetch has succeeded yet; the state is then unchanged.
     */
    method HandleResponse(r: FetchResult) returns (crashed: bool)
      requires Valid() && !finished
      modifies this
      ensures Valid() && !finished
      ensures crashed <==> BucketStep(old(State()), r, limits).None?
      ensures crashed ==> State() == old(State())
      ensures !crashed ==> State() == BucketStep(old(State()), r, limits).value
    {
      if r.Fetched? {
        flowRecords := Some(r.content);
      }
      if flowRecords.None? {
        crashed := true;
        return;
      }
      crashed := false;
      if flowRecords.value.statusCode == 200 {
        HandleItems(flowRecords.value.items);
      }
    }

    /**
     * The bucket loop (lines 232-299) over bucket end times fixed in
     * advance. It stops at the first NameError: then the buckets queried
     * are a prefix of `ends`, the state is the one before the failing bucket,
     * and the whole sweep fails.
     */
    method QueryBuckets(ends: seq<int>, respond: int -> FetchResult) returns (queried: seq<int>, crashed: bool)
      requires Valid() && !finished
      modifies this
      ensures Valid() && !finished
      ensures var rs := Responses(respond, ends);
        (crashed <==> Sweep(old(State()), rs, limits).None?) &&
        (!crashed ==> queried == ends && Sweep(old(State()), rs, limits) == Some(State())) &&
        (crashed ==>
          0 < |queried| <= |ends| && queried == ends[..|queried|] &&
          Sweep(old(State()), rs[..|queried| - 1], limits) == Some(State()) &&
          Sweep(old(State()), rs[..|queried|], limits).None?)
    {
      ghost var s0 := State();
      ghost var rs := Responses(respond, ends);
      queried := [];
      crashed := false;
      for i := 0 to |ends|
        invariant Valid() && !finished
        invariant queried == ends[..i]
        invariant Sweep(s0, rs[..i], limits) == Some(State())
      {
        assert rs[..i + 1][..i] == rs[..i];
        queried := queried + [ends[i]];
        crashed := HandleResponse(respond(ends[i]));
        if crashed {
          SweepStaysFailed(s0, rs, i + 1, limits);
          return;
        }
      }
      assert rs[..|ends|] == rs;
    }

    /** Writes the results summary (lines 303-306). */
    method Finish()
      requires Valid() && !finished
      modifies this
      ensures Valid() && finished
      ensures Totals() == old(Totals()) && flowRecords == old(flowRecords)
      ensures lines == old(lines) + [SummaryLine(Totals(), limits.minCallDurationMs)]
    {
      lines := lines + [SummaryLine(Totals(), limits.minCallDurationMs)];
      finished := true;
      assert lines[..|lines| - 1] == old(lines);
    }
  }

  /**
   * The whole run. `clockSeconds` stands for `time.time()` and `respond`
   * for the flows_monitor call on a bucket end time. The bucket ends are
   * fixed before the first fetch, because the epoch is read once.
   * Either the first fetch fails and the run dies with only the header
   * written, or every bucket is processed as `Sweep` says and the summary
   * trailer is appended.
   */
  method Run(cfg: Config, clockSeconds: int, respond: int -> FetchResult)
    returns (report: Report, queried: seq<int>, crashed: bool)
    ensures fresh(report) && report.Valid()
    ensures report.limits == cfg.limits
    ensures report.fileName == FileName(cfg.siteName, cfg.appName, WindowEnd(cfg, clockSeconds))
    ensures var ends := Buckets.Schedule(WindowStart(cfg, clockSeconds), WindowEnd(cfg, clockSeconds));
      var outcome := Sweep(Initial, Responses(respond, ends), cfg.limits);
      (crashed <==> outcome.None?) &&
      (crashed ==> queried == ends[..1] && report.State() == Initial && !report.finished) &&
      (!crashed ==>
        queried == ends && report.finished &&
        report.Totals() == outcome.value.totals && report.flowRecords == outcome.value.records &&
        report.lines == outcome.value.lines + [SummaryLine(outcome.value.totals, cfg.limits.minCallDurationMs)])
  {
    var epoch := WindowEnd(cfg, clockSeconds);
    var start := WindowStart(cfg, clockSeconds);
    report := new Report(cfg.limits, FileName(cfg.siteName, cfg.appName, epoch));
    var ends := Buckets.BucketEnds(start, epoch);
    queried, crashed := report.QueryBuckets(ends, respond);
    ghost var rs := Responses(respond, ends);
    SweepFailsOnlyOnFirstBucket(rs, cfg.limits);
    if crashed {
      ghost var k := |queried| - 1;
      SweepFailsOnlyOnFirstBucket(rs[..k + 1], cfg.limits);
      SweepFailsOnlyOnFirstBucket(rs[..k], cfg.limits);
      assert k == 0;
      return;
    }
    report.Finish();
  }
}
