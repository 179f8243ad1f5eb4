/** Worked examples of the analysis on small histories. */
module Scenarios {
  import opened Wrappers
  import opened Entities
  import opened Ordering
  import opened Trend
  import opened MonedaServicio

  /**
   * Rates 1.00, 1.05, 1.10, 1.05, 1.00, 0.95, 1.00, 1.05 on days 1 to 8 with a 1% threshold:
   * a rise to day 3, a fall to day 6, a rise to day 8.
   */
  lemma RiseFallRise()
    ensures var h := [Observation(1, 1.00), Observation(2, 1.05), Observation(3, 1.10), Observation(4, 1.05),
                      Observation(5, 1.00), Observation(6, 0.95), Observation(7, 1.00), Observation(8, 1.05)];
            Segmentation("USD - Dolar", h, 1.0)
            == Some([Segment("USD - Dolar", 1, 3, Sell), Segment("USD - Dolar", 3, 6, Buy), Segment("USD - Dolar", 6, 8, Sell)])
  {
    var c := "USD - Dolar";
    var h := [Observation(1, 1.00), Observation(2, 1.05), Observation(3, 1.10), Observation(4, 1.05),
              Observation(5, 1.00), Observation(6, 0.95), Observation(7, 1.00), Observation(8, 1.05)];
    SegmentsFirst(c, h, 1.0);
    assert Segments(c, h, 2, 1.0) == [Segment(c, 1, 2, Sell)];
    SegmentsGrow(c, h, 2, 1.0);
    assert Segments(c, h, 3, 1.0) == [Segment(c, 1, 3, Sell)];
    SegmentsGrow(c, h, 3, 1.0);
    assert Segments(c, h, 4, 1.0) == [Segment(c, 1, 3, Sell), Segment(c, 3, 4, Buy)];
    SegmentsGrow(c, h, 4, 1.0);
    assert Segments(c, h, 5, 1.0) == [Segment(c, 1, 3, Sell), Segment(c, 3, 5, Buy)];
    SegmentsGrow(c, h, 5, 1.0);
    assert Segments(c, h, 6, 1.0) == [Segment(c, 1, 3, Sell), Segment(c, 3, 6, Buy)];
    SegmentsGrow(c, h, 6, 1.0);
    assert Segments(c, h, 7, 1.0) == [Segment(c, 1, 3, Sell), Segment(c, 3, 6, Buy), Segment(c, 6, 7, Sell)];
    SegmentsGrow(c, h, 7, 1.0);
    assert Segments(c, h, 8, 1.0) == [Segment(c, 1, 3, Sell), Segment(c, 3, 6, Buy), Segment(c, 6, 8, Sell)];
  }

  /** The sort puts the three observations of the next scenario in date order. */
  lemma SortsThreeDays()
    ensures SortByDate([Observation(3, 4099.0), Observation(1, 4100.0), Observation(2, 4105.0)])
            == [Observation(1, 4100.0), Observation(2, 4105.0), Observation(3, 4099.0)]
  {
    var d1, d2, d3 := Observation(1, 4100.0), Observation(2, 4105.0), Observation(3, 4099.0);
    var h := [d3, d1, d2];
    assert h[1..] == [d1, d2] && [d1, d2][1..] == [d2] && [d2][1..] == [];
    assert SortByDate([d2]) == Insert(d2, []) == [d2];
    assert SortByDate([d1, d2]) == Insert(d1, [d2]) == [d1, d2];
    assert Insert(d3, [d2]) == [d2] + Insert(d3, []);
    assert Insert(d3, [d1, d2]) == [d1] + Insert(d3, [d2]) == [d1, d2, d3];
  }

  /** None of the steps 4100 -> 4105 -> 4099 reaches 1%, so days 1 to 3 form one no-change segment. */
  lemma ThreeDaysQuiet()
    ensures Segmentation("USD - Dolar", [Observation(1, 4100.0), Observation(2, 4105.0), Observation(3, 4099.0)], 1.0)
            == Some([Segment("USD - Dolar", 1, 3, NoChange)])
  {
    var h := [Observation(1, 4100.0), Observation(2, 4105.0), Observation(3, 4099.0)];
    assert !Crosses(h[0].rate, h[1].rate, 1.0) && !Crosses(h[1].rate, h[2].rate, 1.0);
    SegmentationQuiet("USD - Dolar", h, 1.0);
  }

  /**
   * Rates 4100, 4105, 4099 on days 1 to 3, fetched out of order: no step reaches 1%,
   * so the answer is one no-change segment from day 1 to day 3.
   */
  lemma SmallMovesOutOfOrder(search: string -> seq<Currency>, history: int -> seq<Observation>)
    requires search("USD") == [Currency(1, "USD", "Dolar")]
    requires history(1) == [Observation(3, 4099.0), Observation(1, 4100.0), Observation(2, 4105.0)]
    ensures Analysis(search, history, "USD", 1.0) == Ok([Segment("USD - Dolar", 1, 3, NoChange)])
  {
    var usd := search("USD")[0];
    var h := SortByDate(history(usd.id));
    assert h == [Observation(1, 4100.0), Observation(2, 4105.0), Observation(3, 4099.0)] by {
      assert usd.id == 1;
      SortsThreeDays();
    }
    assert Label(usd) == "USD - Dolar";
    ThreeDaysQuiet();
    AnalysisFound(search, history, "USD", 1.0);
  }
}
