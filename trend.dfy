/**
 * The trend segmentation of a date-sorted rate history, as a fold over the
 * adjacent pairs of observations. The state carried from one pair to the next
 * is the current recommendation and the start date of the open segment, both
 * unset at first, and the segments closed so far.
 */
module Trend {
  import opened Wrappers
  import opened Entities
  import opened Ordering

  function Abs(x: real): (r: real)
  {
    if x < 0.0 then -x else x
  }

  /** The percentage variation of one step: |cur - prev| / prev * 100. */
  function Variation(prev: real, cur: real): (r: real)
    requires prev != 0.0
  {
    Abs(cur - prev) / prev * 100.0
  }

  /**
   * Whether the step from prev to cur reaches the threshold. The comparison is
   * inclusive. A zero predecessor is not guarded by the service: in double
   * precision the variation is then +infinity when cur is not zero (it reaches
   * every finite threshold) and NaN when cur is zero too (it reaches none).
   */
  predicate Crosses(prev: real, cur: real, threshold: real)
  {
    if prev == 0.0 then cur != 0.0 else Variation(prev, cur) >= threshold
  }

  /** For a positive predecessor the test needs no division. */
  lemma CrossesDivisionFree(prev: real, cur: real, threshold: real)
    requires prev > 0.0
    ensures Crosses(prev, cur, threshold) <==> Abs(cur - prev) * 100.0 >= threshold * prev
  {
  }

  /** A variation exactly equal to the threshold reaches it. */
  lemma ThresholdInclusive(prev: real, cur: real)
    requires prev != 0.0
    ensures Crosses(prev, cur, Variation(prev, cur))
  {
  }

  /** The recommendation a threshold-reaching step gives: sell on a strict rise, buy otherwise. */
  function Direction(prev: real, cur: real): (r: Recommendation)
  {
    if cur > prev then Sell else Buy
  }

  /**
   * The recommendation after one step (nuevaTendencia), given the current one
   * (unset before the first step).
   */
  function Candidate(current: Option<Recommendation>, prev: real, cur: real, threshold: real): (r: Recommendation)
    ensures Crosses(prev, cur, threshold) && cur > prev ==> r == Sell
    ensures Crosses(prev, cur, threshold) && cur <= prev ==> r == Buy
    ensures !Crosses(prev, cur, threshold) && current.Some? ==> r == current.value
    ensures !Crosses(prev, cur, threshold) && current.None? ==> r == NoChange
    ensures r == NoChange ==> !Crosses(prev, cur, threshold) && (current.None? || current == Some(NoChange))
    ensures current.Some? && r != current.value ==> Crosses(prev, cur, threshold) && r == Direction(prev, cur)
  {
    if Crosses(prev, cur, threshold) then Direction(prev, cur)
    else if current.Some? then current.value
    else NoChange
  }

  /** With a zero threshold every step from a positive rate reaches it, and an unchanged rate means buy. */
  lemma ZeroThreshold(current: Option<Recommendation>, prev: real, cur: real)
    requires prev > 0.0
    ensures Crosses(prev, cur, 0.0)
    ensures cur == prev ==> Candidate(current, prev, cur, 0.0) == Buy
  {
  }

  /** The state carried by the scan: recommendation, start of the open segment, closed segments. */
  datatype Scan = Scan(trend: Option<Recommendation>, start: Option<int>, closed: seq<Segment>)

  /**
   * One iteration of the scan over the pair (prev, cur). When the recommendation
   * changes, the open segment (if there is one) is closed at prev's date and a new
   * one is opened there.
   */
  function Step(currency: string, st: Scan, prev: Observation, cur: Observation, threshold: real): (r: Scan)
    ensures r.trend == Some(Candidate(st.trend, prev.rate, cur.rate, threshold))
    ensures r.trend == st.trend ==> r == st
    ensures st.trend.Some? && !Crosses(prev.rate, cur.rate, threshold) ==> r == st
    ensures st.trend.None? ==> r.closed == st.closed && r.start == Some(prev.date)
    ensures r.trend != st.trend ==> r.start == Some(prev.date) && r.trend == Some(Candidate(st.trend, prev.rate, cur.rate, threshold))
    ensures st.trend.Some? && st.start.Some? && r.trend != st.trend
            ==> r.closed == st.closed + [Segment(currency, st.start.value, prev.date, st.trend.value)]
  {
    var next := Candidate(st.trend, prev.rate, cur.rate, threshold);
    if Some(next) == st.trend then st
    else
      Scan(Some(next), Some(prev.date),
           if st.trend.Some? && st.start.Some?
           then st.closed + [Segment(currency, st.start.value, prev.date, st.trend.value)]
           else st.closed)
  }

  /** The state after the iterations over the first n observations of h. */
  function Fold(currency: string, h: seq<Observation>, n: nat, threshold: real): (r: Scan)
    requires n <= |h|
    ensures r.trend.Some? <==> n >= 2
    ensures r.start.Some? <==> n >= 2
  {
    if n < 2 then Scan(None, None, [])
    else Step(currency, Fold(currency, h, n - 1, threshold), h[n - 2], h[n - 1], threshold)
  }

  /** The segments after n observations, the open one closed at the n-th observation's date. */
  function Segments(currency: string, h: seq<Observation>, n: nat, threshold: real): (r: seq<Segment>)
    requires 2 <= n <= |h|
    ensures |r| >= 1 && r[|r| - 1].toDate == h[n - 1].date
  {
    var st := Fold(currency, h, n, threshold);
    st.closed + [Segment(currency, st.start.value, h[n - 1].date, st.trend.value)]
  }

  /**
   * The whole analysis of a date-sorted history: None when the start date was
   * never set, which is when there are fewer than two observations.
   */
  function Segmentation(currency: string, h: seq<Observation>, threshold: real): (r: Option<seq<Segment>>)
    ensures r.Some? <==> |h| >= 2
  {
    var st := Fold(currency, h, |h|, threshold);
    if st.start.None? then None else Some(Segments(currency, h, |h|, threshold))
  }

  predicate Contiguous(s: seq<Segment>)
  {
    forall j :: 0 < j < |s| ==> s[j].fromDate == s[j - 1].toDate
  }

  predicate Alternating(s: seq<Segment>)
  {
    forall j :: 0 < j < |s| ==> s[j].recommendation != s[j - 1].recommendation
  }

  predicate Ordered(s: seq<Segment>)
  {
    forall j :: 0 <= j < |s| ==> s[j].fromDate <= s[j].toDate
  }

  /** Step k (from h[k-1] to h[k]) reached the threshold and opened seg with its direction. */
  predicate OpensAt(h: seq<Observation>, threshold: real, k: int, seg: Segment)
  {
    && 1 <= k < |h|
    && seg.fromDate == h[k - 1].date
    && Crosses(h[k - 1].rate, h[k].rate, threshold)
    && seg.recommendation == Direction(h[k - 1].rate, h[k].rate)
  }

  /** seg was opened by one of the steps before observation n. */
  predicate OpenedBefore(h: seq<Observation>, threshold: real, n: int, seg: Segment)
  {
    exists k :: 1 <= k < n && OpensAt(h, threshold, k, seg)
  }

  /** Every segment after the first was opened by one of the steps before observation n. */
  predicate OpenedByCrossings(h: seq<Observation>, threshold: real, n: int, s: seq<Segment>)
  {
    forall j :: 0 < j < |s| ==> OpenedBefore(h, threshold, n, s[j])
  }

  /** After the first pair there is one segment, from the first date, labelled by that pair alone. */
  lemma SegmentsFirst(c: string, h: seq<Observation>, t: real)
    requires |h| >= 2
    ensures Segments(c, h, 2, t) == [Segment(c, h[0].date, h[1].date, Candidate(None, h[0].rate, h[1].rate, t))]
  {
    assert Fold(c, h, 1, t) == Scan(None, None, []);
  }

  /**
   * One more pair either extends the open segment to the new date (the
   * recommendation stays) or closes it and opens a new one at the previous date.
   */
  lemma SegmentsGrow(c: string, h: seq<Observation>, n: nat, t: real)
    requires 2 <= n < |h|
    ensures var s := Segments(c, h, n, t);
            var last := s[|s| - 1];
            var next := Candidate(Some(last.recommendation), h[n - 1].rate, h[n].rate, t);
            if next == last.recommendation
            then Segments(c, h, n + 1, t) == s[..|s| - 1] + [last.(toDate := h[n].date)]
            else Segments(c, h, n + 1, t) == s + [Segment(c, h[n - 1].date, h[n].date, next)]
  {
  }

  lemma {:induction false} SegmentsStart(c: string, h: seq<Observation>, n: nat, t: real)
    requires 2 <= n <= |h|
    ensures var s := Segments(c, h, n, t);
            s[0].fromDate == h[0].date && s[0].recommendation == Candidate(None, h[0].rate, h[1].rate, t)
  {
    if n == 2 {
      SegmentsFirst(c, h, t);
    } else {
      SegmentsStart(c, h, n - 1, t);
      SegmentsGrow(c, h, n - 1, t);
    }
  }

  lemma {:induction false} SegmentsContiguous(c: string, h: seq<Observation>, n: nat, t: real)
    requires 2 <= n <= |h|
    ensures Contiguous(Segments(c, h, n, t))
  {
    if n == 2 {
      SegmentsFirst(c, h, t);
    } else {
      SegmentsContiguous(c, h, n - 1, t);
      SegmentsGrow(c, h, n - 1, t);
    }
  }

  lemma {:induction false} SegmentsAlternate(c: string, h: seq<Observation>, n: nat, t: real)
    requires 2 <= n <= |h|
    ensures Alternating(Segments(c, h, n, t))
  {
    if n == 2 {
      SegmentsFirst(c, h, t);
    } else {
      SegmentsAlternate(c, h, n - 1, t);
      SegmentsGrow(c, h, n - 1, t);
    }
  }

  lemma {:induction false} SegmentsCurrency(c: string, h: seq<Observation>, n: nat, t: real)
    requires 2 <= n <= |h|
    ensures forall j :: 0 <= j < |Segments(c, h, n, t)| ==> Segments(c, h, n, t)[j].currency == c
  {
    if n == 2 {
      SegmentsFirst(c, h, t);
    } else {
      SegmentsCurrency(c, h, n - 1, t);
      SegmentsGrow(c, h, n - 1, t);
    }
  }

  /** Every segment after the first was opened by a threshold-reaching step, in that step's direction. */
  lemma {:induction false} SegmentsOpened(c: string, h: seq<Observation>, n: nat, t: real)
    requires 2 <= n <= |h|
    ensures OpenedByCrossings(h, t, n, Segments(c, h, n, t))
  {
    if n == 2 {
      SegmentsFirst(c, h, t);
    } else {
      var s := Segments(c, h, n - 1, t);
      var s' := Segments(c, h, n, t);
      var last := s[|s| - 1];
      var next := Candidate(Some(last.recommendation), h[n - 2].rate, h[n - 1].rate, t);
      SegmentsOpened(c, h, n - 1, t);
      SegmentsGrow(c, h, n - 1, t);
      if next == last.recommendation {
        OpenedExtend(h, t, n, s, h[n - 1].date);
      } else {
        OpenedAppend(h, t, n, s, Segment(c, h[n - 2].date, h[n - 1].date, next));
      }
    }
  }

  lemma OpenedExtend(h: seq<Observation>, t: real, n: int, s: seq<Segment>, end: int)
    requires |s| >= 1 && OpenedByCrossings(h, t, n - 1, s)
    ensures OpenedByCrossings(h, t, n, s[..|s| - 1] + [s[|s| - 1].(toDate := end)])
  {
    var s' := s[..|s| - 1] + [s[|s| - 1].(toDate := end)];
    forall j | 0 < j < |s'| ensures OpenedBefore(h, t, n, s'[j]) {
      var k :| 1 <= k < n - 1 && OpensAt(h, t, k, s[j]);
      assert OpensAt(h, t, k, s'[j]);
    }
  }

  lemma OpenedAppend(h: seq<Observation>, t: real, n: int, s: seq<Segment>, seg: Segment)
    requires OpenedByCrossings(h, t, n - 1, s) && OpensAt(h, t, n - 1, seg)
    ensures OpenedByCrossings(h, t, n, s + [seg])
  {
  }

  /** With the history sorted, no segment ends before it starts. */
  lemma {:induction false} SegmentsOrdered(c: string, h: seq<Observation>, n: nat, t: real)
    requires 2 <= n <= |h| && SortedByDate(h)
    ensures Ordered(Segments(c, h, n, t))
  {
    if n == 2 {
      SegmentsFirst(c, h, t);
    } else {
      SegmentsOrdered(c, h, n - 1, t);
      SegmentsGrow(c, h, n - 1, t);
    }
  }

  /** Each segment spans at least one step. */
  lemma {:induction false} SegmentsCount(c: string, h: seq<Observation>, n: nat, t: real)
    requires 2 <= n <= |h|
    ensures |Segments(c, h, n, t)| <= n - 1
  {
    if n == 2 {
      SegmentsFirst(c, h, t);
    } else {
      SegmentsCount(c, h, n - 1, t);
      SegmentsGrow(c, h, n - 1, t);
    }
  }

  /** A history none of whose steps reaches the threshold gives one no-change segment over all of it. */
  lemma {:induction false} SegmentsQuiet(c: string, h: seq<Observation>, n: nat, t: real)
    requires 2 <= n <= |h|
    requires forall k :: 1 <= k < n ==> !Crosses(h[k - 1].rate, h[k].rate, t)
    ensures Segments(c, h, n, t) == [Segment(c, h[0].date, h[n - 1].date, NoChange)]
  {
    if n == 2 {
      SegmentsFirst(c, h, t);
    } else {
      SegmentsQuiet(c, h, n - 1, t);
      SegmentsGrow(c, h, n - 1, t);
      assert !Crosses(h[n - 2].rate, h[n - 1].rate, t);
    }
  }

  /** Contiguous segments that do not end before they start follow one another in time. */
  lemma {:induction false} ContiguousAscending(s: seq<Segment>)
    requires Contiguous(s) && Ordered(s)
    ensures forall i, j :: 0 <= i < j < |s| ==> s[i].toDate <= s[j].fromDate
  {
    if |s| > 1 {
      var p := s[..|s| - 1];
      assert Contiguous(p) && Ordered(p);
      ContiguousAscending(p);
      forall i, j | 0 <= i < j < |s| ensures s[i].toDate <= s[j].fromDate {
        if j < |s| - 1 {
          assert s[i] == p[i] && s[j] == p[j];
        } else if i < j - 1 {
          assert s[i] == p[i] && s[j - 1] == p[j - 1];
        }
      }
    }
  }

  /**
   * The segmentation of a history of at least two observations: a non-empty
   * list from the first date to the last, each segment starting where the
   * previous one ends with a different recommendation, each later segment
   * opened by a threshold-reaching step in its direction, so that "no change"
   * can only be the first segment's recommendation.
   */
  lemma SegmentationShape(c: string, h: seq<Observation>, t: real)
    requires |h| >= 2
    ensures Segmentation(c, h, t).Some?
    ensures var s := Segmentation(c, h, t).value;
            && 1 <= |s| <= |h| - 1
            && s[0].fromDate == h[0].date
            && s[0].recommendation == Candidate(None, h[0].rate, h[1].rate, t)
            && s[|s| - 1].toDate == h[|h| - 1].date
            && Contiguous(s)
            && Alternating(s)
            && (forall j :: 0 <= j < |s| ==> s[j].currency == c)
            && OpenedByCrossings(h, t, |h|, s)
            && (forall j :: 0 < j < |s| ==> s[j].recommendation != NoChange)
  {
    var s := Segments(c, h, |h|, t);
    assert Segmentation(c, h, t).value == s;
    SegmentsStart(c, h, |h|, t);
    SegmentsContiguous(c, h, |h|, t);
    SegmentsAlternate(c, h, |h|, t);
    SegmentsCurrency(c, h, |h|, t);
    SegmentsOpened(c, h, |h|, t);
    SegmentsCount(c, h, |h|, t);
    forall j | 0 < j < |s| ensures s[j].recommendation != NoChange {
      assert OpenedBefore(h, t, |h|, s[j]);
      var k :| 1 <= k < |h| && OpensAt(h, t, k, s[j]);
    }
  }

  /** With the history sorted by date, the segments are non-empty ranges in ascending, non-overlapping order. */
  lemma SegmentationSorted(c: string, h: seq<Observation>, t: real)
    requires |h| >= 2 && SortedByDate(h)
    ensures var s := Segmentation(c, h, t).value;
            && Ordered(s)
            && (forall i, j :: 0 <= i < j < |s| ==> s[i].toDate <= s[j].fromDate)
  {
    SegmentsOrdered(c, h, |h|, t);
    SegmentsContiguous(c, h, |h|, t);
    ContiguousAscending(Segments(c, h, |h|, t));
  }

  /** Hysteresis at the level of the result: a history of sub-threshold steps is one no-change segment. */
  lemma SegmentationQuiet(c: string, h: seq<Observation>, t: real)
    requires |h| >= 2
    requires forall k :: 1 <= k < |h| ==> !Crosses(h[k - 1].rate, h[k].rate, t)
    ensures Segmentation(c, h, t) == Some([Segment(c, h[0].date, h[|h| - 1].date, NoChange)])
  {
    SegmentsQuiet(c, h, |h|, t);
  }
}
