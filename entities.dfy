/**
 * The entities the investment analysis reads and produces: a currency (Moneda),
 * one day's exchange rate (CambioMoneda) and one segment of the answer
 * (AnalisisInversionDTO). Dates are day numbers; rates are exact reals.
 */
module Entities {

  /** A currency as the repository's search returns it: id, symbol (Sigla), name (Nombre). */
  datatype Currency = Currency(id: int, symbol: string, name: string)

  /** One rate observation of the currency being analysed: its date and its rate (Cambio). */
  datatype Observation = Observation(date: int, rate: real)

  /** The recommendation a segment carries. */
  datatype Recommendation = Sell | Buy | NoChange

  /** One segment of the analysis: the currency's display label, the day range and the recommendation. */
  datatype Segment = Segment(currency: string, fromDate: int, toDate: int, recommendation: Recommendation)

  /** The text the service stores in a segment for each recommendation. */
  function Text(r: Recommendation): (s: string)
  {
    match r
    case Sell => "Vender USD"
    case Buy => "Comprar USD"
    case NoChange => "** sin cambio **"
  }

  /**
   * The service compares recommendations as strings; distinct recommendations
   * have distinct texts, so comparing the datatype values is the same test.
   */
  lemma TextInjective(a: Recommendation, b: Recommendation)
    ensures Text(a) == Text(b) <==> a == b
  {
  }

  /** The label "Sigla - Nombre" that every segment carries. */
  function Label(c: Currency): (s: string)
    ensures |s| == |c.symbol| + 3 + |c.name|
    ensures s[..|c.symbol|] == c.symbol && s[|c.symbol|..|c.symbol| + 3] == " - " && s[|c.symbol| + 3..] == c.name
  {
    c.symbol + " - " + c.name
  }
}
