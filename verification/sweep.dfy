/**
 * The sweeping-window update of the consumer: each channel's timestamps are
 * folded into [0, XViewMs), wrap-arounds are counted against the head position
 * shared by all channels, and each channel's two line series ("left" receives
 * the current sweep, "right" shows the previous one under an overlay) are
 * appended to, split and swapped, or cleared.
 *
 * The chart library's series are modelled as point buffers with a draw order.
 */
module Sweep {
  import Codec

  /** Width of the sweeping window, in milliseconds. */
  const XViewMs: int := 10 * 1000

  datatype Point = Point(x: int, y: int)

  /** Pairs x- and y-values into points, as a series' addArraysXY does. */
  function Zip(xs: seq<int>, ys: seq<int>): (points: seq<Point>)
    requires |xs| == |ys|
    ensures |points| == |xs|
    ensures forall i :: 0 <= i < |xs| ==> points[i] == Point(xs[i], ys[i])
  {
    if xs == [] then [] else [Point(xs[0], ys[0])] + Zip(xs[1..], ys[1..])
  }

  /** A batch the update can take: non-empty, paired, non-negative timestamps. */
  predicate ValidBatch(chData: Codec.Channel)
  {
    |chData.xs| > 0 && |chData.ys| == |chData.xs|
    && forall i :: 0 <= i < |chData.xs| ==> chData.xs[i] >= 0
  }

  /** Timestamps folded onto the sweeping axis. */
  function Normalized(xs: seq<int>, xViewMs: int): (s: seq<int>)
    requires xViewMs > 0
    ensures |s| == |xs|
    ensures forall i :: 0 <= i < |xs| ==> 0 <= s[i] < xViewMs
  {
    seq(|xs|, i requires 0 <= i < |xs| => xs[i] % xViewMs)
  }

  /** The last timestamp of a batch, folded onto the sweeping axis. */
  function LastX(chData: Codec.Channel, xViewMs: int): int
    requires xViewMs > 0 && ValidBatch(chData)
  {
    chData.xs[|chData.xs| - 1] % xViewMs
  }

  /**
   * Number of false-to-true transitions of `x < prevPosX` along s, the
   * sign before s[0] being signPrev.
   */
  function Edges(s: seq<int>, prevPosX: int, signPrev: bool): nat
  {
    if s == [] then 0
    else
      var sign := s[0] < prevPosX;
      (if sign && sign != signPrev then 1 else 0) + Edges(s[1..], prevPosX, sign)
  }

  /** The number of full sweeps a batch completes: its falling edges, scanning from `false`. */
  function FullSweeps(s: seq<int>, prevPosX: int): nat
  {
    Edges(s, prevPosX, false)
  }

  /** The first index whose value is at most prevPosX, or |s| when there is none. */
  function SplitIndex(s: seq<int>, prevPosX: int): (i: nat)
    ensures i <= |s|
    ensures forall j :: 0 <= j < i ==> s[j] > prevPosX
    ensures i < |s| ==> s[i] <= prevPosX
  {
    if s == [] then 0
    else if s[0] <= prevPosX then 0
    else 1 + SplitIndex(s[1..], prevPosX)
  }

  /** A batch completes no sweep exactly when none of its values falls below prevPosX. */
  lemma {:induction false} NoSweepIff(s: seq<int>, prevPosX: int)
    ensures FullSweeps(s, prevPosX) == 0 <==> forall i :: 0 <= i < |s| ==> s[i] >= prevPosX
  {
    if s != [] {
      NoSweepIff(s[1..], prevPosX);
      if s[0] >= prevPosX {
        forall i | 0 <= i < |s| && (forall j :: 0 <= j < |s[1..]| ==> s[1..][j] >= prevPosX)
          ensures s[i] >= prevPosX
        {
          if i > 0 { assert s[i] == s[1..][i - 1]; }
        }
      }
    }
  }

  /** When a batch completes a sweep, the split index lies inside the batch. */
  lemma SweepHasSplit(s: seq<int>, prevPosX: int)
    requires FullSweeps(s, prevPosX) >= 1
    ensures SplitIndex(s, prevPosX) < |s|
  {
    NoSweepIff(s, prevPosX);
  }

  /** The observable state of one channel: both line series, the draw orders, the highlight. */
  datatype ChannelState = ChannelState(
    left: seq<Point>,
    right: seq<Point>,
    rightOrder: int,
    overlayOrder: int,
    leftOrder: int,
    highlight: seq<Point>)

  /** The effect of one batch on one channel, the head position being prevPosX. */
  function ChannelStep(st: ChannelState, chData: Codec.Channel, prevPosX: int, xViewMs: int): ChannelState
    requires xViewMs > 0 && ValidBatch(chData)
  {
    var s := Normalized(chData.xs, xViewMs);
    var ys := chData.ys;
    var n := |s|;
    Drawn(st, s, ys, prevPosX).(highlight := [Point(s[n - 1], ys[n - 1])])
  }

  /** The line series after a batch of folded samples: discard, split and swap, or append. */
  function Drawn(st: ChannelState, s: seq<int>, ys: seq<int>, prevPosX: int): ChannelState
    requires |s| == |ys|
  {
    var fullSweepsCount := FullSweeps(s, prevPosX);
    if fullSweepsCount > 1 then
      st.(left := [], right := [])
    else if fullSweepsCount == 1 then
      Swapped(st, s, ys, prevPosX)
    else
      st.(left := st.left + Zip(s, ys))
  }

  /**
   * A completed sweep: the samples before the split index finish the left
   * series, which becomes the right one; the samples after it start the new left one.
   */
  function Swapped(st: ChannelState, s: seq<int>, ys: seq<int>, prevPosX: int): ChannelState
    requires |s| == |ys|
  {
    var n := |s|;
    var i := SplitIndex(s, prevPosX);
    var current := if i < n then Zip(s[..i], ys[..i]) else [];
    var next := if i < n then Zip(s[i + 1..], ys[i + 1..]) else [];
    st.(right := st.left + current, left := next, rightOrder := 0, overlayOrder := 1, leftOrder := 2)
  }

  /** More than one sweep in a batch: both series are emptied, nothing is drawn, nothing swaps. */
  lemma StepDiscard(st: ChannelState, chData: Codec.Channel, prevPosX: int, xViewMs: int)
    requires xViewMs > 0 && ValidBatch(chData)
    requires FullSweeps(Normalized(chData.xs, xViewMs), prevPosX) > 1
    ensures var r := ChannelStep(st, chData, prevPosX, xViewMs);
            r.left == [] && r.right == []
            && r.rightOrder == st.rightOrder && r.overlayOrder == st.overlayOrder && r.leftOrder == st.leftOrder
  {
  }

  /**
   * No sweep completed: every folded timestamp is at least prevPosX, the left
   * series gains the whole folded batch in order, and the right series stays.
   */
  lemma StepAppend(st: ChannelState, chData: Codec.Channel, prevPosX: int, xViewMs: int)
    requires xViewMs > 0 && ValidBatch(chData)
    requires FullSweeps(Normalized(chData.xs, xViewMs), prevPosX) == 0
    ensures var s := Normalized(chData.xs, xViewMs);
            forall i :: 0 <= i < |s| ==> s[i] >= prevPosX
    ensures var r := ChannelStep(st, chData, prevPosX, xViewMs);
            var s := Normalized(chData.xs, xViewMs);
            r.left == st.left + Zip(s, chData.ys) && r.right == st.right
            && r.rightOrder == st.rightOrder && r.overlayOrder == st.overlayOrder && r.leftOrder == st.leftOrder
  {
    NoSweepIff(Normalized(chData.xs, xViewMs), prevPosX);
  }

  /**
   * Exactly one sweep completed: at the first index i whose folded value is at
   * most prevPosX, the old left series gains the samples before i and becomes
   * the right series; the new left series holds only the samples after i;
   * the draw orders become right 0, overlay 1, left 2. Sample i is drawn in neither.
   */
  lemma StepSplit(st: ChannelState, chData: Codec.Channel, prevPosX: int, xViewMs: int)
    requires xViewMs > 0 && ValidBatch(chData)
    requires FullSweeps(Normalized(chData.xs, xViewMs), prevPosX) == 1
    ensures var s := Normalized(chData.xs, xViewMs);
            var i := SplitIndex(s, prevPosX);
            i < |s| && s[i] <= prevPosX && (forall j :: 0 <= j < i ==> s[j] > prevPosX)
    ensures var s := Normalized(chData.xs, xViewMs);
            var ys := chData.ys;
            var i := SplitIndex(s, prevPosX);
            var r := ChannelStep(st, chData, prevPosX, xViewMs);
            i < |s|
            && r.right == st.left + Zip(s[..i], ys[..i])
            && r.left == Zip(s[i + 1..], ys[i + 1..])
            && r.rightOrder == 0 && r.overlayOrder == 1 && r.leftOrder == 2
  {
    SweepHasSplit(Normalized(chData.xs, xViewMs), prevPosX);
  }

  /**
   * A batch that wraps once: with the head at 9000, folded timestamps
   * [9500, 9800, 200, 600] finish the sweep with the first two samples, the
   * sample at 200 is dropped, and only 600 starts the new left series.
   */
  lemma SingleWrapExample(st: ChannelState)
    ensures var r := ChannelStep(st, Codec.Channel([9500, 9800, 200, 600], [1, 2, 3, 4]), 9000, XViewMs);
            r.right == st.left + [Point(9500, 1), Point(9800, 2)]
            && r.left == [Point(600, 4)]
            && r.highlight == [Point(600, 4)]
  {
    var s := Normalized([9500, 9800, 200, 600], XViewMs);
    assert s == [9500, 9800, 200, 600];
    assert Edges(s[3..], 9000, true) == 0;
    assert Edges(s[2..], 9000, false) == 1;
    assert FullSweeps(s, 9000) == 1;
    assert SplitIndex(s[2..], 9000) == 0;
    assert SplitIndex(s, 9000) == 2;
    var ys := [1, 2, 3, 4];
    assert s[..2] == [9500, 9800] && ys[..2] == [1, 2];
    assert Zip(s[..2], ys[..2]) == [Point(9500, 1), Point(9800, 2)];
    assert s[3..] == [600] && ys[3..] == [4];
    assert Zip(s[3..], ys[3..]) == [Point(600, 4)];
    assert Drawn(st, s, ys, 9000) == Swapped(st, s, ys, 9000);
  }

  /**
   * A batch that starts exactly at the head: edges count `x < prevPosX` but the
   * split takes the first `x <= prevPosX`. With the head at 5000, folded
   * timestamps [5000, 6000, 100] count one sweep yet split at index 0, so the
   * finished sweep gains nothing and the new left series runs backwards,
   * 6000 before 100.
   */
  lemma HeadTieExample(st: ChannelState)
    ensures var r := ChannelStep(st, Codec.Channel([5000, 6000, 100], [1, 2, 3]), 5000, XViewMs);
            r.right == st.left
            && r.left == [Point(6000, 2), Point(100, 3)]
            && r.left[0].x > r.left[1].x
  {
    var s := Normalized([5000, 6000, 100], XViewMs);
    assert s == [5000, 6000, 100];
    assert Edges(s[2..], 5000, false) == 1;
    assert Edges(s[1..], 5000, false) == 1;
    assert FullSweeps(s, 5000) == 1;
    assert SplitIndex(s, 5000) == 0;
    var ys := [1, 2, 3];
    assert Zip(s[..0], ys[..0]) == [];
    assert s[1..] == [6000, 100] && ys[1..] == [2, 3];
    assert Zip(s[1..], ys[1..]) == [Point(6000, 2), Point(100, 3)];
    assert Drawn(st, s, ys, 5000) == Swapped(st, s, ys, 5000);
  }

  /** After every batch the highlight holds exactly the batch's last folded point. */
  lemma StepHighlight(st: ChannelState, chData: Codec.Channel, prevPosX: int, xViewMs: int)
    requires xViewMs > 0 && ValidBatch(chData)
    ensures ChannelStep(st, chData, prevPosX, xViewMs).highlight
         == [Point(LastX(chData, xViewMs), chData.ys[|chData.ys| - 1])]
  {
  }

  /** Every point of a channel lies on the sweeping axis. */
  predicate InWindow(st: ChannelState, xViewMs: int)
  {
    (forall p :: p in st.left ==> 0 <= p.x < xViewMs)
    && (forall p :: p in st.right ==> 0 <= p.x < xViewMs)
    && (forall p :: p in st.highlight ==> 0 <= p.x < xViewMs)
  }

  /** Points of a zip of folded values lie on the axis. */
  lemma ZipInWindow(s: seq<int>, ys: seq<int>, xViewMs: int)
    requires |s| == |ys|
    requires forall i :: 0 <= i < |s| ==> 0 <= s[i] < xViewMs
    ensures forall p :: p in Zip(s, ys) ==> 0 <= p.x < xViewMs
  {
    forall p | p in Zip(s, ys) ensures 0 <= p.x < xViewMs {
      var i :| 0 <= i < |Zip(s, ys)| && Zip(s, ys)[i] == p;
    }
  }

  /** The update keeps every drawn point on the sweeping axis. */
  lemma StepInWindow(st: ChannelState, chData: Codec.Channel, prevPosX: int, xViewMs: int)
    requires xViewMs > 0 && ValidBatch(chData)
    requires InWindow(st, xViewMs)
    ensures InWindow(ChannelStep(st, chData, prevPosX, xViewMs), xViewMs)
  {
    var s := Normalized(chData.xs, xViewMs);
    var ys := chData.ys;
    var n := |s|;
    var i := SplitIndex(s, prevPosX);
    ZipInWindow(s, ys, xViewMs);
    if i < n {
      ZipInWindow(s[..i], ys[..i], xViewMs);
      ZipInWindow(s[i + 1..], ys[i + 1..], xViewMs);
    }
  }

  /**
   * How many points the two series hold afterwards: all of the batch is added
   * without a sweep; the old right series and sample i are lost on a single
   * sweep; nothing is kept past more than one sweep.
   */
  lemma StepPointCount(st: ChannelState, chData: Codec.Channel, prevPosX: int, xViewMs: int)
    requires xViewMs > 0 && ValidBatch(chData)
    ensures var r := ChannelStep(st, chData, prevPosX, xViewMs);
            var k := FullSweeps(Normalized(chData.xs, xViewMs), prevPosX);
            |r.left| + |r.right|
            == if k == 0 then |st.left| + |st.right| + |chData.xs|
               else if k == 1 then |st.left| + |chData.xs| - 1
               else 0
  {
    var s := Normalized(chData.xs, xViewMs);
    if FullSweeps(s, prevPosX) == 1 {
      SweepHasSplit(s, prevPosX);
    }
  }

  /**
   * The head position after a call: 0 or the last folded timestamp of some
   * channel, whichever is largest.
   */
  function HeadPosition(batch: seq<Codec.Channel>, xViewMs: int): (posX: int)
    requires xViewMs > 0
    requires forall j :: 0 <= j < |batch| ==> ValidBatch(batch[j])
    ensures 0 <= posX < xViewMs
  {
    if batch == [] then 0
    else
      var before := HeadPosition(batch[..|batch| - 1], xViewMs);
      var last := LastX(batch[|batch| - 1], xViewMs);
      if before < last then last else before
  }

  /**
   * The head position is the maximum of 0 and the channels' last folded
   * timestamps: no smaller than any of them, and equal to 0 or to one of them.
   */
  lemma {:induction false} HeadPositionIsMax(batch: seq<Codec.Channel>, xViewMs: int)
    requires xViewMs > 0
    requires forall j :: 0 <= j < |batch| ==> ValidBatch(batch[j])
    ensures forall j :: 0 <= j < |batch| ==> LastX(batch[j], xViewMs) <= HeadPosition(batch, xViewMs)
    ensures HeadPosition(batch, xViewMs) == 0
         || exists j :: 0 <= j < |batch| && HeadPosition(batch, xViewMs) == LastX(batch[j], xViewMs)
  {
    if batch != [] {
      var init := batch[..|batch| - 1];
      assert forall j :: 0 <= j < |init| ==> init[j] == batch[j];
      HeadPositionIsMax(init, xViewMs);
    }
  }

  /** The head position over one more channel is the larger of the two. */
  lemma HeadPositionStep(batch: seq<Codec.Channel>, k: nat)
    requires k < |batch|
    requires forall j :: 0 <= j <= k ==> ValidBatch(batch[j])
    ensures var before := HeadPosition(batch[..k], XViewMs);
            var last := LastX(batch[k], XViewMs);
            HeadPosition(batch[..k + 1], XViewMs) == if before < last then last else before
  {
    assert batch[..k + 1][..k] == batch[..k];
  }

  /**
   * A chart series reduced to what the sweeping logic uses: its points and
   * its draw order.
   */
  class Series {
    var points: seq<Point>
    var drawOrder: int

    constructor (drawOrder: int)
      ensures points == [] && this.drawOrder == drawOrder
    {
      points := [];
      this.drawOrder := drawOrder;
    }

    method Clear()
      modifies this`points
      ensures points == []
    {
      points := [];
    }

    method AddArraysXY(xs: seq<int>, ys: seq<int>)
      requires |xs| == |ys|
      modifies this`points
      ensures points == old(points) + Zip(xs, ys)
    {
      points := points + Zip(xs, ys);
    }

    method Add(p: Point)
      modifies this`points
      ensures points == old(points) + [p]
    {
      points := points + [p];
    }

    method SetDrawOrder(seriesDrawOrderIndex: int)
      modifies this`drawOrder
      ensures drawOrder == seriesDrawOrderIndex
    {
      drawOrder := seriesDrawOrderIndex;
    }
  }

  /**
   * One channel's chart: the left and right line series (exchanged on every
   * completed sweep), the overlay hiding old data, and the last-point highlight.
   */
  class ChannelView {
    var seriesLeft: Series
    var seriesRight: Series
    const seriesOverlayRight: Series
    const seriesHighlightLastPoints: Series
    ghost const Repr: set<object>

    ghost predicate Valid()
      reads this
    {
      Repr == {this, seriesLeft, seriesRight, seriesOverlayRight, seriesHighlightLastPoints}
      && seriesLeft != seriesRight
      && seriesLeft != seriesOverlayRight && seriesLeft != seriesHighlightLastPoints
      && seriesRight != seriesOverlayRight && seriesRight != seriesHighlightLastPoints
      && seriesOverlayRight != seriesHighlightLastPoints
    }

    ghost function View(): ChannelState
      reads this, seriesLeft, seriesRight, seriesOverlayRight, seriesHighlightLastPoints
    {
      ChannelState(seriesLeft.points, seriesRight.points,
                   seriesRight.drawOrder, seriesOverlayRight.drawOrder, seriesLeft.drawOrder,
                   seriesHighlightLastPoints.points)
    }

    /** The series are created right, overlay, left, highlight, and draw in that order. */
    constructor ()
      ensures Valid() && fresh(Repr)
      ensures View() == ChannelState([], [], 0, 1, 2, [])
    {
      var right := new Series(0);
      var overlay := new Series(1);
      var left := new Series(2);
      var highlight := new Series(3);
      seriesRight := right;
      seriesOverlayRight := overlay;
      seriesLeft := left;
      seriesHighlightLastPoints := highlight;
      Repr := {this, left, right, overlay, highlight};
    }

    /**
     * The per-channel body of the update: fold the timestamps, count the
     * sweeps, then discard, split and swap, or append; finally replace the
     * highlight. Returns the batch's last folded timestamp.
     */
    method Update(chData: Codec.Channel, prevPosX: int) returns (lastX: int)
      requires Valid() && ValidBatch(chData)
      modifies Repr
      ensures Valid()
      ensures View() == ChannelStep(old(View()), chData, prevPosX, XViewMs)
      ensures lastX == LastX(chData, XViewMs)
    {
      var xValuesTimestamped, yValues := chData.xs, chData.ys;
      var newDataPointsCount := |xValuesTimestamped|;
      var xValuesSweeping := NormalizeTimestamps(xValuesTimestamped, XViewMs);
      lastX := xValuesSweeping[newDataPointsCount - 1];
      Draw(xValuesSweeping, yValues, prevPosX);
      HighlightLast(xValuesSweeping[newDataPointsCount - 1], yValues[newDataPointsCount - 1]);
    }

    /** Counts the batch's sweeps, then discards, splits and swaps, or appends. */
    method Draw(xValuesSweeping: seq<int>, yValues: seq<int>, prevPosX: int)
      requires Valid() && |xValuesSweeping| == |yValues|
      modifies Repr
      ensures Valid()
      ensures View() == Drawn(old(View()), xValuesSweeping, yValues, prevPosX)
      ensures if FullSweeps(xValuesSweeping, prevPosX) == 1
              then seriesLeft == old(seriesRight) && seriesRight == old(seriesLeft)
              else seriesLeft == old(seriesLeft) && seriesRight == old(seriesRight)
    {
      var fullSweepsCount := CountFullSweeps(xValuesSweeping, prevPosX);
      if fullSweepsCount > 1 {
        DiscardBoth();
      } else if fullSweepsCount == 1 {
        CompleteSweep(xValuesSweeping, yValues, prevPosX);
      } else {
        seriesLeft.AddArraysXY(xValuesSweeping, yValues);
      }
    }

    /** Finds the split index, then finishes the sweep and swaps the two line series. */
    method CompleteSweep(xValuesSweeping: seq<int>, yValues: seq<int>, prevPosX: int)
      requires Valid() && |xValuesSweeping| == |yValues|
      modifies this, seriesLeft, seriesRight, seriesOverlayRight
      ensures Valid()
      ensures seriesLeft == old(seriesRight) && seriesRight == old(seriesLeft)
      ensures View() == Swapped(old(View()), xValuesSweeping, yValues, prevPosX)
    {
      var newDataPointsCount := |xValuesSweeping|;
      var currentX, currentY, nextX, nextY := [], [], [], [];
      var i := FindSplit(xValuesSweeping, prevPosX);
      if i < newDataPointsCount {
        currentX, currentY := xValuesSweeping[..i], yValues[..i];
        nextX, nextY := xValuesSweeping[i + 1..], yValues[i + 1..];
      }
      FinishSweepAndSwap(currentX, currentY, nextX, nextY);
    }

    /** Too many sweeps to draw: both line series are emptied. */
    method DiscardBoth()
      requires Valid()
      modifies seriesLeft`points, seriesRight`points
      ensures Valid()
      ensures View() == old(View()).(left := [], right := [])
    {
      seriesRight.Clear();
      seriesLeft.Clear();
    }

    /**
     * One sweep completed: the left series is finished with the current
     * sweep's samples, the two line series exchange roles and draw orders are
     * reassigned, and the new left series starts over with the next sweep's samples.
     */
    method FinishSweepAndSwap(currentX: seq<int>, currentY: seq<int>, nextX: seq<int>, nextY: seq<int>)
      requires Valid()
      requires |currentX| == |currentY| && |nextX| == |nextY|
      modifies this, seriesLeft, seriesRight, seriesOverlayRight
      ensures Valid()
      ensures seriesLeft == old(seriesRight) && seriesRight == old(seriesLeft)
      ensures View() == old(View()).(right := old(View()).left + Zip(currentX, currentY),
                                     left := Zip(nextX, nextY),
                                     rightOrder := 0, overlayOrder := 1, leftOrder := 2)
    {
      seriesLeft.AddArraysXY(currentX, currentY);
      var nextLeft, nextRight := seriesRight, seriesLeft;
      seriesLeft := nextLeft;
      seriesRight := nextRight;
      seriesRight.SetDrawOrder(0);
      seriesOverlayRight.SetDrawOrder(1);
      seriesLeft.SetDrawOrder(2);
      seriesLeft.Clear();
      seriesLeft.AddArraysXY(nextX, nextY);
    }

    /** The highlight is cleared and given the one point (x, y). */
    method HighlightLast(x: int, y: int)
      requires Valid()
      modifies seriesHighlightLastPoints`points
      ensures Valid()
      ensures View() == old(View()).(highlight := [Point(x, y)])
    {
      seriesHighlightLastPoints.Clear();
      seriesHighlightLastPoints.Add(Point(x, y));
    }
  }

  /** Folds every timestamp onto the sweeping axis with `%`. */
  method NormalizeTimestamps(xValuesTimestamped: seq<int>, xViewMs: int) returns (xValuesSweeping: seq<int>)
    requires xViewMs > 0
    ensures xValuesSweeping == Normalized(xValuesTimestamped, xViewMs)
  {
    xValuesSweeping := [];
    for i := 0 to |xValuesTimestamped|
      invariant xValuesSweeping == Normalized(xValuesTimestamped[..i], xViewMs)
    {
      xValuesSweeping := xValuesSweeping + [xValuesTimestamped[i] % xViewMs];
    }
    assert xValuesTimestamped[..|xValuesTimestamped|] == xValuesTimestamped;
  }

  /** Counts falling edges of `x < prevPosX` with a running previous sign, starting from false. */
  method CountFullSweeps(xValuesSweeping: seq<int>, prevPosX: int) returns (fullSweepsCount: nat)
    ensures fullSweepsCount == FullSweeps(xValuesSweeping, prevPosX)
  {
    fullSweepsCount := 0;
    var signPrev := false;
    for i := 0 to |xValuesSweeping|
      invariant fullSweepsCount + Edges(xValuesSweeping[i..], prevPosX, signPrev)
             == FullSweeps(xValuesSweeping, prevPosX)
    {
      assert xValuesSweeping[i..][1..] == xValuesSweeping[i + 1..];
      var sign := xValuesSweeping[i] < prevPosX;
      if sign && sign != signPrev {
        fullSweepsCount := fullSweepsCount + 1;
      }
      signPrev := sign;
    }
  }

  /** Scans for the first value at most prevPosX; returns |s| when there is none. */
  method FindSplit(xValuesSweeping: seq<int>, prevPosX: int) returns (i: nat)
    ensures i == SplitIndex(xValuesSweeping, prevPosX)
  {
    i := 0;
    while i < |xValuesSweeping| && xValuesSweeping[i] > prevPosX
      invariant i <= |xValuesSweeping|
      invariant forall j :: 0 <= j < i ==> xValuesSweeping[j] > prevPosX
    {
      i := i + 1;
    }
  }

  /**
   * The consumer's sweeping state: every channel's chart and the head
   * position shared by all of them.
   */
  class Sweeper {
    const channels: seq<ChannelView>
    var prevPosX: int

    ghost const Repr: set<object>

    ghost predicate Valid()
      reads this, channels
    {
      0 <= prevPosX < XViewMs
      && this in Repr
      && (forall j :: 0 <= j < |channels| ==>
            channels[j].Valid() && channels[j].Repr <= Repr && this !in channels[j].Repr)
      && (forall j, k :: 0 <= j < |channels| && 0 <= k < |channels| && j != k ==> channels[j].Repr !! channels[k].Repr)
    }

    constructor (chartCount: nat)
      ensures Valid() && prevPosX == 0 && |channels| == chartCount
      ensures fresh(Repr)
      ensures forall j :: 0 <= j < chartCount ==> channels[j].View() == ChannelState([], [], 0, 1, 2, [])
    {
      var cs: seq<ChannelView> := [];
      ghost var parts: set<object> := {};
      for iCh := 0 to chartCount
        invariant |cs| == iCh
        invariant forall j :: 0 <= j < iCh ==> cs[j].Repr <= parts
        invariant fresh(parts)
        invariant forall j :: 0 <= j < iCh ==> cs[j].Valid() && fresh(cs[j].Repr)
        invariant forall j :: 0 <= j < iCh ==> cs[j].View() == ChannelState([], [], 0, 1, 2, [])
        invariant forall j, k :: 0 <= j < iCh && 0 <= k < iCh && j != k ==> cs[j].Repr !! cs[k].Repr
      {
        var channel := new ChannelView();
        cs := cs + [channel];
        parts := parts + channel.Repr;
      }
      channels := cs;
      Repr := {this} + parts;
      prevPosX := 0;
    }

    /** Every channel's state, in channel order. */
    ghost function Views(): (views: seq<ChannelState>)
      requires Valid()
      reads this, Repr
      ensures |views| == |channels|
      ensures forall j :: 0 <= j < |channels| ==> views[j] == channels[j].View()
    {
      seq(|channels|, j requires 0 <= j < |channels| && Valid() reads this, Repr => channels[j].View())
    }

    /** Updates channel iCh alone; every other channel keeps its state. */
    method UpdateChannel(iCh: nat, chData: Codec.Channel) returns (lastX: int)
      requires Valid() && iCh < |channels| && ValidBatch(chData)
      modifies channels[iCh].Repr
      ensures Valid()
      ensures lastX == LastX(chData, XViewMs)
      ensures channels[iCh].View() == ChannelStep(old(channels[iCh].View()), chData, prevPosX, XViewMs)
      ensures forall j :: 0 <= j < |channels| && j != iCh ==> channels[j].View() == old(channels[j].View())
    {
      var channel := channels[iCh];
      lastX := channel.Update(chData, prevPosX);
      forall j | 0 <= j < |channels| && j != iCh
        ensures channels[j].Valid() && channels[j].View() == old(channels[j].View())
      {
        assert channels[j].Repr !! channel.Repr;
      }
    }

    /**
     * Applies one decoded batch: every channel is updated against the head
     * position of the previous call, then the head position becomes the
     * largest last folded timestamp (or 0).
     */
    method HandleIncomingData(dataAllChannels: seq<Codec.Channel>)
      requires Valid()
      requires |channels| <= |dataAllChannels|
      requires forall j :: 0 <= j < |channels| ==> ValidBatch(dataAllChannels[j])
      modifies Repr
      ensures Valid()
      ensures prevPosX == HeadPosition(dataAllChannels[..|channels|], XViewMs)
      ensures forall j :: 0 <= j < |channels| ==>
                channels[j].View() == ChannelStep(old(channels[j].View()), dataAllChannels[j], old(prevPosX), XViewMs)
    {
      var posX := UpdateChannels(dataAllChannels);
      prevPosX := posX;
    }

    /** The loop over the channels, returning the new head position. */
    method UpdateChannels(dataAllChannels: seq<Codec.Channel>) returns (posX: int)
      requires Valid()
      requires |channels| <= |dataAllChannels|
      requires forall j :: 0 <= j < |channels| ==> ValidBatch(dataAllChannels[j])
      modifies Repr - {this}
      ensures Valid()
      ensures posX == HeadPosition(dataAllChannels[..|channels|], XViewMs)
      ensures forall j :: 0 <= j < |channels| ==>
                channels[j].View() == ChannelStep(old(channels[j].View()), dataAllChannels[j], prevPosX, XViewMs)
    {
      ghost var before := Views();
      posX := 0;
      for iCh := 0 to |channels|
        invariant Valid()
        invariant posX == HeadPosition(dataAllChannels[..iCh], XViewMs)
        invariant forall j :: 0 <= j < iCh ==>
                    channels[j].View() == ChannelStep(before[j], dataAllChannels[j], prevPosX, XViewMs)
        invariant forall j :: iCh <= j < |channels| ==> channels[j].View() == before[j]
      {
        var lastX := UpdateChannel(iCh, dataAllChannels[iCh]);
        HeadPositionStep(dataAllChannels, iCh);
        posX := if posX < lastX then lastX else posX;
      }
    }
  }
}
