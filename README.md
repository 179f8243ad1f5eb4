# Investment-trend analysis of the currency service

This project models `MonedaServicio.AnalizarInversionDolar`, the one operation of the
currency service that computes something. It takes a currency symbol, a date range
and a percentage threshold (1% by default), and then:

1. It resolves the symbol through the repository's search. The first match wins, and
   the call fails when there is none.
2. It fetches that currency's rate history for the range and sorts it by date.
3. It makes one pass over adjacent pairs of observations. The pass carries the current
   recommendation and the start date of the open segment, both unset at first.
4. For each pair, a step whose percentage variation `|cur - prev| / prev * 100`
   reaches the threshold gives "Vender USD" (sell) on a strict rise and "Comprar USD"
   (buy) otherwise. A smaller step keeps the current recommendation, or gives
   "** sin cambio **" (no change) while none is set.
5. When the recommendation changes, the open segment is closed at the previous
   observation's date and a new one opens on that same date.
6. After the pass, the open segment is closed at the last observation's date.

Files and modules:

- `entities.dfy` (`Entities`): the currency (Moneda), the rate observation
  (CambioMoneda), the recommendation and its display text, and the result segment
  (AnalisisInversionDTO).
- `ordering.dfy` (`Ordering`): the date sort. It is an insertion sort proved sorted,
  a permutation of its input and stable. It is also proved to be the only sequence
  with those properties, so it gives the same answer as the service's stable
  library sort.
- `trend.dfy` (`Trend`): the pass as a fold. `Crosses` and `Candidate` are the
  threshold test and the new recommendation. `Step` is one iteration, `Fold` is the
  state after n observations, and `Segmentation` is the whole result. The lemmas
  prove the shape of the result.
- `moneda_servicio.dfy` (`MonedaServicio`): the service method
  `AnalyzeInvestment`. It is written as a loop over the sorted history and proved
  equal to the specification function `Analysis`. The lemmas state the method's
  failures and what a successful answer looks like.
- `scenarios.dfy` (`Scenarios`): small concrete histories worked through the model.
- `wrappers.dfy` (`Wrappers`): `Option` and `Result`.

Modelling choices:

- Dates are day numbers (`int`).
- Rates and the threshold are exact `real`s.
- The two repository calls are function parameters: `search` for the symbol search
  and `history` for the rate history of a currency id over the requested range.
- The service's failures are `Failure` values instead of exceptions:
  - `CurrencyNotFound(symbol)` is the exception thrown when the search is empty.
  - `InsufficientHistory` is the exception raised when the unset start date is read
    after the loop. This happens exactly when the history has fewer than two
    observations.
- A zero predecessor rate is not guarded by the service. In double precision the
  variation is then +infinity when the new rate is non-zero, which reaches every
  finite threshold. It is NaN when both rates are zero, which reaches no threshold.
  `Crosses` models exactly these two cases. Every other predecessor uses exact real
  arithmetic.

Edge cases of the code that the model keeps as they are:

- With a zero threshold, an unchanged positive rate also reaches the threshold,
  because the comparison is `>=`. It then gives "Comprar USD" (`Trend.ZeroThreshold`).
- A zero predecessor rate followed by a non-zero rate reaches the threshold, as
  described above, and gives "Vender USD" for a positive new rate ("Comprar USD" for a
  negative one). A zero followed by a zero never reaches the threshold.
  No check rejects it.
- A history with fewer than two observations makes the call fail, because the start
  date is never set. The answer is not an empty list.

## Model

| member | source | states |
|---|---|---|
| `MonedaServicio.AnalyzeInvestment` | apiCambiosMoneda.Aplicacion/Servicios/MonedaServicio.cs:92-145 | The loop over the sorted history, with the recommendation, start date and result list as locals, returns exactly what the specification `Analysis` gives for every search result, history and threshold (default 1.0) |
| `MonedaServicio.AnalysisNotFound` | apiCambiosMoneda.Aplicacion/Servicios/MonedaServicio.cs:96-100 | The call fails with "currency not found" if and only if the symbol search returns nothing |
| `MonedaServicio.AnalysisInsufficient` | apiCambiosMoneda.Aplicacion/Servicios/MonedaServicio.cs:106-140 | Once a currency is found, the call fails (unset start date read after the loop) if and only if its history has fewer than two observations |
| `MonedaServicio.AnalysisSegments` | apiCambiosMoneda.Aplicacion/Servicios/MonedaServicio.cs:96-145 | With a currency found and at least two observations, the answer has at least one segment and fewer segments than observations. All segments carry the first match's "Sigla - Nombre" label. They are contiguous and non-overlapping, in ascending order, each with start no later than end. Consecutive ones differ in recommendation. Each later one is opened by a threshold-reaching step of the sorted history in that step's direction, so it is never "no change" |
| `MonedaServicio.AnalysisCoverage` | apiCambiosMoneda.Aplicacion/Servicios/MonedaServicio.cs:102-142 | With a currency found and at least two observations, the first segment starts at the earliest date of the fetched history and the last ends at its latest, both dates of actual observations |
| `MonedaServicio.AnalysisQuiet` | apiCambiosMoneda.Aplicacion/Servicios/MonedaServicio.cs:116-142 | When no step of the sorted history reaches the threshold, the answer is exactly one "no change" segment from the first date to the last |
| `Entities.TextInjective` | apiCambiosMoneda.Aplicacion/Servicios/MonedaServicio.cs:116-120 | The three recommendation texts are distinct, so the code's string comparison of old and new recommendation is equality of recommendations |
| `Ordering.SortByDate` | apiCambiosMoneda.Aplicacion/Servicios/MonedaServicio.cs:102-104 | The sorted history is ordered by ascending date and is a permutation of the fetched history |
| `Ordering.SortByDateStable` | apiCambiosMoneda.Aplicacion/Servicios/MonedaServicio.cs:103 | Observations with the same date keep their fetched order, as the stable library sort keeps them |
| `Ordering.StableSortUnique` | apiCambiosMoneda.Aplicacion/Servicios/MonedaServicio.cs:103 | Any two date-sorted sequences that agree on the order of each date's observations are equal, so any stable sort by date gives the model's result |
| `Ordering.SortByDateBounds` | apiCambiosMoneda.Aplicacion/Servicios/MonedaServicio.cs:102-104 | The first sorted observation has the earliest date of the history and the last has the latest; both come from the history |
| `Trend.CrossesDivisionFree` | apiCambiosMoneda.Aplicacion/Servicios/MonedaServicio.cs:114-116 | For a positive predecessor, the variation reaches the threshold if and only if `abs(cur - prev) * 100 >= threshold * prev` |
| `Trend.ThresholdInclusive` | apiCambiosMoneda.Aplicacion/Servicios/MonedaServicio.cs:116 | A variation exactly equal to the threshold reaches it |
| `Trend.ZeroThreshold` | apiCambiosMoneda.Aplicacion/Servicios/MonedaServicio.cs:114-117 | With a zero threshold every step from a positive rate reaches it, and an unchanged rate then gives "Comprar USD" |
| `Trend.Candidate` | apiCambiosMoneda.Aplicacion/Servicios/MonedaServicio.cs:116-117 | A threshold-reaching step gives sell on a strict rise and buy on a fall or an equal rate. A smaller step keeps a set recommendation, and gives "no change" while none is set. "No change" arises only from a smaller step while the recommendation is unset or already "no change". A set recommendation changes only on a threshold-reaching step, to that step's direction |
| `Trend.Step` | apiCambiosMoneda.Aplicacion/Servicios/MonedaServicio.cs:111-134 | After an iteration the recommendation is always the step's candidate, as line 133 assigns it on every change. Nothing changes unless the recommendation changes, and a smaller step never changes a set one (hysteresis). The first assignment closes no segment. A change opens the new segment at the previous observation's date with the new recommendation, and a change of a set recommendation closes the open segment from its start date to the previous observation's date under the old recommendation |
| `Trend.Fold` | apiCambiosMoneda.Aplicacion/Servicios/MonedaServicio.cs:106-133 | The recommendation and the start date are both set after n observations if and only if n >= 2 |
| `Trend.Segmentation` | apiCambiosMoneda.Aplicacion/Servicios/MonedaServicio.cs:106-142 | The segmentation has a result exactly when the history has at least two observations |
| `Trend.SegmentsFirst` | apiCambiosMoneda.Aplicacion/Servicios/MonedaServicio.cs:109-133 | After the first pair there is a single segment from the first date, whose recommendation is decided by that pair alone |
| `Trend.SegmentsGrow` | apiCambiosMoneda.Aplicacion/Servicios/MonedaServicio.cs:116-134 | Each further pair either extends the open segment to the new date, when the recommendation stays, or appends a segment that starts at the previous date with the new recommendation |
| `Trend.SegmentsStart` | apiCambiosMoneda.Aplicacion/Servicios/MonedaServicio.cs:106-133 | The first segment starts at the first observation's date, with the recommendation of the first pair |
| `Trend.SegmentsContiguous` | apiCambiosMoneda.Aplicacion/Servicios/MonedaServicio.cs:127-132 | Each segment starts on the date the previous one ends |
| `Trend.SegmentsAlternate` | apiCambiosMoneda.Aplicacion/Servicios/MonedaServicio.cs:120-133 | Consecutive segments carry different recommendations |
| `Trend.SegmentsCurrency` | apiCambiosMoneda.Aplicacion/Servicios/MonedaServicio.cs:124-142 | Every segment carries the currency label |
| `Trend.SegmentsOpened` | apiCambiosMoneda.Aplicacion/Servicios/MonedaServicio.cs:114-133 | Every segment after the first starts at the date of a step that reached the threshold, and carries that step's direction |
| `Trend.SegmentsOrdered` | apiCambiosMoneda.Aplicacion/Servicios/MonedaServicio.cs:103-140 | With the history sorted, no segment ends before it starts |
| `Trend.SegmentsCount` | apiCambiosMoneda.Aplicacion/Servicios/MonedaServicio.cs:109-136 | There are at most as many segments as pairs of observations |
| `Trend.SegmentsQuiet` | apiCambiosMoneda.Aplicacion/Servicios/MonedaServicio.cs:116-142 | When no step reaches the threshold, there is one "no change" segment over the whole history |
| `Trend.ContiguousAscending` | apiCambiosMoneda.Aplicacion/Servicios/MonedaServicio.cs:127-140 | Contiguous segments that do not end before they start follow one another: each ends no later than any later one starts |
| `Trend.SegmentationShape` | apiCambiosMoneda.Aplicacion/Servicios/MonedaServicio.cs:106-142 | For at least two observations the result is non-empty, starts at the first date, ends at the last, is contiguous and alternating, and has one label. Each segment after the first is opened by a threshold-reaching step and is never "no change" |
| `Trend.SegmentationSorted` | apiCambiosMoneda.Aplicacion/Servicios/MonedaServicio.cs:103-140 | For a sorted history the segments are non-empty ranges in ascending, non-overlapping order |
| `Trend.SegmentationQuiet` | apiCambiosMoneda.Aplicacion/Servicios/MonedaServicio.cs:116-142 | A history of sub-threshold steps gives one "no change" segment from the first date to the last |
| `Scenarios.RiseFallRise` | apiCambiosMoneda.Aplicacion/Servicios/MonedaServicio.cs:109-142 | Rates 1.00, 1.05, 1.10, 1.05, 1.00, 0.95, 1.00, 1.05 on days 1-8 at 1% give sell 1-3, buy 3-6, sell 6-8 |
| `Scenarios.SortsThreeDays` | apiCambiosMoneda.Aplicacion/Servicios/MonedaServicio.cs:102-104 | A history fetched as days 3, 1, 2 is sorted to days 1, 2, 3 |
| `Scenarios.ThreeDaysQuiet` | apiCambiosMoneda.Aplicacion/Servicios/MonedaServicio.cs:109-142 | Rates 4100, 4105, 4099 on days 1-3 at 1% give one "no change" segment from day 1 to day 3 |
| `Scenarios.SmallMovesOutOfOrder` | apiCambiosMoneda.Aplicacion/Servicios/MonedaServicio.cs:96-142 | When the search for "USD" returns the currency "USD - Dolar" with id 1 and its history comes back as days 3, 1, 2 with rates 4099, 4100, 4105, the answer is one "no change" segment from day 1 to day 3 |

## Left out

- The other service methods (`Obtener`, `ObtenerTodos`, `Buscar`, `Agregar`, `Modificar`, `Eliminar`, the `*Cambio*` methods, `ObtenerCambioActual`, `ObtenerHistorialCambios`, `ObtenerPaisesPorMoneda`) only forward to the repository and hold no logic.
- The repository itself is a persistence layer outside the service. This covers how the search matches a symbol and how the history is filtered by the date range. Both calls are function parameters, and the date range is folded into the history function.
- `async`/`Task` plumbing has no bearing on the sequential pass.
- Double-precision rounding, negative zero and non-finite thresholds are not modelled: rates and threshold are exact reals. Only the division by a zero predecessor is modelled as described above.
- `DateTime` values are day numbers. The time of day is not modelled, and neither is the `Nullable` machinery beyond an explicit option.
- The currency id carried by each rate observation is not used by the analysis and is not modelled.
- The exception's message text is not modelled. The "not found" failure carries only the requested symbol.
- The segment's recommendation is the `Recommendation` datatype, and `Entities.Text` gives the string the service stores.
- The test project only checks the pass-through `ObtenerHistorialCambios` against a mocked repository. Its data reappears in `Scenarios.SmallMovesOutOfOrder`.
