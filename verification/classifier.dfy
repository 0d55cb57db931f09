/**
 * The per-flow packet-loss classification of the report
 * (cgnx-rtm-health-report.py, lines 256-299), stated on values: how one
 * flow, and the items of one bucket, move the summary counters and which
 * detail rows they add to the file.
 */
module Classifier {
  import opened Wrappers
  import opened Records
  import opened Output

  /** `max_pl` (line 47) and `mincallduration` (line 39). */
  datatype Thresholds = Thresholds(maxPl: real, minCallDurationMs: int)

  /** Server-to-client or client-to-server. */
  datatype Direction = S2C | C2S

  /** The four outcomes of judging one direction of one flow. */
  datatype Verdict = NoData | WithinLimit | TooShort | Violation

  function MaxLoss(f: Flow, d: Direction): Option<real>
  {
    if d == S2C then f.maxLossS2C else f.maxLossC2S
  }

  /** The direction's "at or below threshold" counter (`pls2cle3` / `plc2sle3`). */
  function AtOrBelow(t: Tally, d: Direction): int
  {
    if d == S2C then t.s2cLe else t.c2sLe
  }

  /** The direction's "above threshold" counter (`pls2cg3` / `plc2sg3`). */
  function Above(t: Tally, d: Direction): int
  {
    if d == S2C then t.s2cG else t.c2sG
  }

  /**
   * The if/elif/else chain of lines 270-281 (and 284-297): null is skipped,
   * a loss at or below `maxPl` is within the limit, a larger loss on a call
   * no longer than the minimum duration is ignored, anything else violates.
   */
  function Judge(maxLoss: Option<real>, durationMs: int, th: Thresholds): (v: Verdict)
    ensures v == NoData <==> maxLoss.None?
    ensures v == WithinLimit <==> maxLoss.Some? && maxLoss.value <= th.maxPl
    ensures v == TooShort <==>
      maxLoss.Some? && maxLoss.value > th.maxPl && durationMs <= th.minCallDurationMs
    ensures v == Violation <==>
      maxLoss.Some? && maxLoss.value > th.maxPl && durationMs > th.minCallDurationMs
  {
    match maxLoss
    case None => NoData
    case Some(loss) =>
      if loss <= th.maxPl then WithinLimit
      else if durationMs <= th.minCallDurationMs then TooShort
      else Violation
  }

  function JudgeFlow(f: Flow, d: Direction, th: Thresholds): Verdict
  {
    Judge(MaxLoss(f, d), f.DurationMs(), th)
  }

  /** The counter update for one direction's verdict. */
  function DirectionStep(t: Tally, d: Direction, v: Verdict): Tally
  {
    match v
    case WithinLimit => if d == S2C then t.(s2cLe := t.s2cLe + 1) else t.(c2sLe := t.c2sLe + 1)
    case Violation => if d == S2C then t.(s2cG := t.s2cG + 1) else t.(c2sG := t.c2sG + 1)
    case _ => t
  }

  /** The rows one direction's verdict writes: the flow's row on a violation. */
  function DirectionLines(f: Flow, v: Verdict): seq<Line>
  {
    if v == Violation then [DetailLine(FlowRow(f))] else []
  }

  /** Counters after one flow item: s2c, then c2s, then `count += 1`. */
  function FlowTally(t: Tally, f: Flow, th: Thresholds): Tally
  {
    var afterS2C := DirectionStep(t, S2C, JudgeFlow(f, S2C, th));
    var afterC2S := DirectionStep(afterS2C, C2S, JudgeFlow(f, C2S, th));
    afterC2S.(count := afterC2S.count + 1)
  }

  /** Rows one flow item appends: the s2c row, if any, then the c2s row. */
  function FlowLines(f: Flow, th: Thresholds): seq<Line>
  {
    DirectionLines(f, JudgeFlow(f, S2C, th)) + DirectionLines(f, JudgeFlow(f, C2S, th))
  }

  /** Counters after the items of one bucket, in order. */
  function ItemsTally(t: Tally, items: seq<Flow>, th: Thresholds): Tally
  {
    if items == [] then t
    else FlowTally(ItemsTally(t, items[..|items| - 1], th), items[|items| - 1], th)
  }

  /** Rows appended for the items of one bucket, in order. */
  function ItemsLines(items: seq<Flow>, th: Thresholds): seq<Line>
  {
    if items == [] then []
    else ItemsLines(items[..|items| - 1], th) + FlowLines(items[|items| - 1], th)
  }

  /** The direction's loss is known and within the threshold. */
  predicate Within(f: Flow, d: Direction, th: Thresholds)
  {
    MaxLoss(f, d).Some? && MaxLoss(f, d).value <= th.maxPl
  }

  /** The direction's loss is known and above the threshold, and the call is longer than the minimum. */
  predicate Exceeds(f: Flow, d: Direction, th: Thresholds)
  {
    MaxLoss(f, d).Some? && MaxLoss(f, d).value > th.maxPl &&
    f.DurationMs() > th.minCallDurationMs
  }

  /**
   * One flow item: `count` goes up by one; each direction's "at or below"
   * counter goes up by one exactly when its loss is known and within the
   * threshold, its "above" counter exactly when its loss is known and above
   * it on a long enough call, and otherwise (null loss, short call) neither
   * changes. One identical row is written per exceeding direction, so a flow
   * exceeding in both directions is written twice.
   */
  lemma FlowEffect(t: Tally, f: Flow, th: Thresholds, d: Direction)
    ensures FlowTally(t, f, th).count == t.count + 1
    ensures AtOrBelow(FlowTally(t, f, th), d) == AtOrBelow(t, d) + (if Within(f, d, th) then 1 else 0)
    ensures Above(FlowTally(t, f, th), d) == Above(t, d) + (if Exceeds(f, d, th) then 1 else 0)
    ensures |FlowLines(f, th)| ==
      (if Exceeds(f, S2C, th) then 1 else 0) + (if Exceeds(f, C2S, th) then 1 else 0)
    ensures forall l :: l in FlowLines(f, th) ==> l == DetailLine(FlowRow(f))
  {
  }

  /**
   * The items of one bucket: `count` goes up by their number, every
   * counter only grows, each direction's two counters together grow by at
   * most that number, and the rows written are detail rows, as many as the
   * two "above" counters grew.
   */
  lemma {:induction false} ItemsAccounting(t: Tally, items: seq<Flow>, th: Thresholds)
    ensures var u := ItemsTally(t, items, th);
      u.count == t.count + |items| &&
      t.s2cLe <= u.s2cLe && t.c2sLe <= u.c2sLe && t.s2cG <= u.s2cG && t.c2sG <= u.c2sG &&
      (u.s2cLe - t.s2cLe) + (u.s2cG - t.s2cG) <= |items| &&
      (u.c2sLe - t.c2sLe) + (u.c2sG - t.c2sG) <= |items| &&
      |ItemsLines(items, th)| == (u.s2cG - t.s2cG) + (u.c2sG - t.c2sG) &&
      forall l :: l in ItemsLines(items, th) ==> IsDetail(l)
  {
    if items != [] {
      var init, f := items[..|items| - 1], items[|items| - 1];
      ItemsAccounting(t, init, th);
      var mid := ItemsTally(t, init, th);
      FlowEffect(mid, f, th, S2C);
      FlowEffect(mid, f, th, C2S);
    }
  }

  /**
   * The invariant of the output file against the counters: the header
   * first, then only detail rows, one per "above" increment, and each
   * direction's counters bounded by the number of flows examined.
   */
  ghost predicate Accounted(t: Tally, lines: seq<Line>)
  {
    |lines| >= 1 && lines[0] == HeaderLine(Header) &&
    0 <= t.s2cLe && 0 <= t.c2sLe && 0 <= t.s2cG && 0 <= t.c2sG &&
    t.s2cLe + t.s2cG <= t.count && t.c2sLe + t.c2sG <= t.count &&
    |lines| == 1 + t.s2cG + t.c2sG &&
    forall i :: 1 <= i < |lines| ==> IsDetail(lines[i])
  }

  lemma FlowKeepsAccounted(t: Tally, lines: seq<Line>, f: Flow, th: Thresholds)
    requires Accounted(t, lines)
    ensures Accounted(FlowTally(t, f, th), lines + FlowLines(f, th))
  {
    FlowEffect(t, f, th, S2C);
    FlowEffect(t, f, th, C2S);
    var added := FlowLines(f, th);
    forall i | 1 <= i < |lines + added|
      ensures IsDetail((lines + added)[i])
    {
      if i >= |lines| {
        assert (lines + added)[i] in added;
      }
    }
  }

  lemma {:induction false} ItemsKeepAccounted(t: Tally, lines: seq<Line>, items: seq<Flow>, th: Thresholds)
    requires Accounted(t, lines)
    ensures Accounted(ItemsTally(t, items, th), lines + ItemsLines(items, th))
  {
    if items != [] {
      var init, f := items[..|items| - 1], items[|items| - 1];
      ItemsKeepAccounted(t, lines, init, th);
      FlowKeepsAccounted(ItemsTally(t, init, th), lines + ItemsLines(init, th), f, th);
      assert lines + ItemsLines(items, th) == (lines + ItemsLines(init, th)) + FlowLines(f, th);
    }
  }
}
