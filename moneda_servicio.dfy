/**
 * The investment analysis of the currency service (AnalizarInversionDolar):
 * resolve the currency by symbol, sort its rate history by date, segment it by
 * trend. The repository is reached through two functions given as parameters:
 * the search by symbol and the rate history of a currency id over the
 * requested date range.
 */
module MonedaServicio {
  import opened Wrappers
  import opened Entities
  import opened Ordering
  import opened Trend

  /** How the analysis fails. */
  datatype Failure =
    | CurrencyNotFound(symbol: string)  // no currency has the requested symbol
    | InsufficientHistory                // the open segment's start date is read while still unset

  /** The analysis as a function of the repository's answers. */
  function Analysis(search: string -> seq<Currency>, history: int -> seq<Observation>, symbol: string, threshold: real)
    : (r: Result<seq<Segment>, Failure>)
  {
    var found := search(symbol);
    if found == [] then Err(CurrencyNotFound(symbol))
    else
      var currency := found[0];
      match Segmentation(Label(currency), SortByDate(history(currency.id)), threshold)
      case None => Err(InsufficientHistory)
      case Some(segments) => Ok(segments)
  }

  /**
   * The service method: the first currency the search returns is analysed;
   * the loop carries the current recommendation and the open segment's start
   * date, closing a segment whenever the recommendation changes, and the open
   * segment is closed at the last observation's date after the loop.
   */
  method AnalyzeInvestment(search: string -> seq<Currency>, history: int -> seq<Observation>, symbol: string, threshold: real := 1.0)
    returns (result: Result<seq<Segment>, Failure>)
    ensures result == Analysis(search, history, symbol, threshold)
  {
    var found := search(symbol);
    if |found| == 0 {
      return Err(CurrencyNotFound(symbol));
    }
    var currency := found[0];
    var changes := SortByDate(history(currency.id));
    var name := Label(currency);
    var segments: seq<Segment> := [];
    var trend: Option<Recommendation> := None;
    var start: Option<int> := None;
    var i := 1;
    while i < |changes|
      invariant 1 <= i && (i <= |changes| || |changes| <= 1)
      invariant Scan(trend, start, segments) == Fold(name, changes, if i <= |changes| then i else |changes|, threshold)
    {
      var prev := changes[i - 1];
      var cur := changes[i];
      var next :=
        if Crosses(prev.rate, cur.rate, threshold) then (if cur.rate > prev.rate then Sell else Buy)
        else if trend.Some? then trend.value
        else NoChange;
      if Some(next) != trend {
        if trend.Some? && start.Some? {
          segments := segments + [Segment(name, start.value, prev.date, trend.value)];
        }
        start := Some(prev.date);
        trend := Some(next);
      }
      i := i + 1;
    }
    if start.None? {
      return Err(InsufficientHistory);
    }
    segments := segments + [Segment(name, start.value, changes[|changes| - 1].date, trend.value)];
    result := Ok(segments);
  }

  /** The analysis fails with "not found" exactly when the search returns no currency. */
  lemma AnalysisNotFound(search: string -> seq<Currency>, history: int -> seq<Observation>, symbol: string, threshold: real)
    ensures Analysis(search, history, symbol, threshold) == Err(CurrencyNotFound(symbol)) <==> search(symbol) == []
  {
  }

  /** Otherwise it fails exactly when the history has fewer than two observations. */
  lemma AnalysisInsufficient(search: string -> seq<Currency>, history: int -> seq<Observation>, symbol: string, threshold: real)
    ensures Analysis(search, history, symbol, threshold) == Err(InsufficientHistory)
            <==> search(symbol) != [] && |history(search(symbol)[0].id)| < 2
  {
  }

  /** Once a currency is found, the answer is the segmentation of its sorted history. */
  lemma AnalysisFound(search: string -> seq<Currency>, history: int -> seq<Observation>, symbol: string, threshold: real)
    requires search(symbol) != []
    ensures var currency := search(symbol)[0];
            var h := SortByDate(history(currency.id));
            Analysis(search, history, symbol, threshold)
            == if |h| < 2 then Err(InsufficientHistory) else Ok(Segmentation(Label(currency), h, threshold).value)
  {
  }

  /**
   * A successful analysis: segments of the first matching currency,
   * contiguous and non-overlapping in ascending order, consecutive segments
   * with different recommendations, every later segment opened by a
   * threshold-reaching step of the sorted history.
   */
  lemma AnalysisSegments(search: string -> seq<Currency>, history: int -> seq<Observation>, symbol: string, threshold: real)
    requires search(symbol) != []
    requires |history(search(symbol)[0].id)| >= 2
    ensures Analysis(search, history, symbol, threshold).Ok?
    ensures var currency := search(symbol)[0];
            var h := history(currency.id);
            var s := Analysis(search, history, symbol, threshold).value;
            && 1 <= |s| < |h|
            && (forall j :: 0 <= j < |s| ==> s[j].currency == Label(currency))
            && Contiguous(s)
            && Ordered(s)
            && (forall i, j :: 0 <= i < j < |s| ==> s[i].toDate <= s[j].fromDate)
            && Alternating(s)
            && OpenedByCrossings(SortByDate(h), threshold, |h|, s)
            && (forall j :: 0 < j < |s| ==> s[j].recommendation != NoChange)
  {
    var currency := search(symbol)[0];
    var sorted := SortByDate(history(currency.id));
    AnalysisFound(search, history, symbol, threshold);
    SegmentationShape(Label(currency), sorted, threshold);
    SegmentationSorted(Label(currency), sorted, threshold);
  }

  /** A successful analysis covers the history from its earliest date to its latest. */
  lemma AnalysisCoverage(search: string -> seq<Currency>, history: int -> seq<Observation>, symbol: string, threshold: real)
    requires search(symbol) != []
    requires |history(search(symbol)[0].id)| >= 2
    ensures Analysis(search, history, symbol, threshold).Ok?
    ensures var h := history(search(symbol)[0].id);
            var s := Analysis(search, history, symbol, threshold).value;
            && |s| >= 1
            && (forall o :: o in h ==> s[0].fromDate <= o.date <= s[|s| - 1].toDate)
            && (exists o :: o in h && o.date == s[0].fromDate)
            && (exists o :: o in h && o.date == s[|s| - 1].toDate)
  {
    var currency := search(symbol)[0];
    var h := history(currency.id);
    var sorted := SortByDate(h);
    AnalysisFound(search, history, symbol, threshold);
    SegmentationShape(Label(currency), sorted, threshold);
    SortByDateBounds(h);
  }

  /** When no step of the sorted history reaches the threshold, the answer is one no-change segment over all of it. */
  lemma AnalysisQuiet(search: string -> seq<Currency>, history: int -> seq<Observation>, symbol: string, threshold: real)
    requires search(symbol) != []
    requires var h := SortByDate(history(search(symbol)[0].id));
             |h| >= 2 && forall k :: 1 <= k < |h| ==> !Crosses(h[k - 1].rate, h[k].rate, threshold)
    ensures var h := SortByDate(history(search(symbol)[0].id));
            Analysis(search, history, symbol, threshold)
            == Ok([Segment(Label(search(symbol)[0]), h[0].date, h[|h| - 1].date, NoChange)])
  {
    var h := SortByDate(history(search(symbol)[0].id));
    AnalysisFound(search, history, symbol, threshold);
    SegmentationQuiet(Label(search(symbol)[0]), h, threshold);
  }
}
