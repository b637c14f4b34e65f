/** The shared screening configuration: the eleven GICS sectors and the four
    fundamental-analysis threshold predicates, each a strict comparison with
    a named constant. */
module Config {
  import opened Text

  /** The Global Industry Classification Standard sectors, as listed. */
  const Sectors: seq<string> := [
    "Communication Services",
    "Consumer Discretionary",
    "Consumer Staples",
    "Energy",
    "Financials",
    "Health Care",
    "Industrials",
    "Information Technology",
    "Materials",
    "Real Estate",
    "Utilities"
  ]

  const MinVolume: real := 250000.0
  const MinReturnOnEquity: real := 10.0
  const MaxDebtToEquity: real := 2.0
  const MaxPriceToEarnings: real := 20.0

  /** Enough shares traded to count as actively traded. */
  predicate Volume(value: real) { value > MinVolume }

  /** Profitable enough, in percent of equity. */
  predicate ReturnOnEquity(value: real) { value > MinReturnOnEquity }

  /** Not too indebted. */
  predicate DebtToEquity(value: real) { value < MaxDebtToEquity }

  /** Not too expensive relative to earnings. */
  predicate PriceToEarnings(value: real) { value < MaxPriceToEarnings }

  /** The table has eleven entries, strictly ascending and so pairwise distinct. */
  lemma SectorsSortedAndDistinct()
    ensures |Sectors| == 11
    ensures StrictlyAscending(Sectors)
    ensures PairwiseDistinct(Sectors)
  {
    forall i | 0 <= i < |Sectors| - 1
      ensures LexLess(Sectors[i], Sectors[i + 1])
    {
      SectorPairOrdered(i);
    }
    AscendingDistinct(Sectors);
  }

  lemma SectorPairOrdered(i: nat)
    requires i < |Sectors| - 1
    ensures LexLess(Sectors[i], Sectors[i + 1])
  {
    var a, b := Sectors[i], Sectors[i + 1];
    if i == 0 {
      FirstDifferenceOrders(a, b, 2);
    } else if i == 1 {
      FirstDifferenceOrders(a, b, 9);
    } else if i == 6 {
      FirstDifferenceOrders(a, b, 2);
    } else {
      FirstCharOrders(a, b);
    }
  }

  /** Each predicate is a strict comparison: the threshold itself fails. */
  lemma Thresholds(v: real)
    ensures Volume(v) <==> v > 250000.0
    ensures ReturnOnEquity(v) <==> v > 10.0
    ensures DebtToEquity(v) <==> v < 2.0
    ensures PriceToEarnings(v) <==> v < 20.0
    ensures !Volume(250000.0) && !ReturnOnEquity(10.0)
    ensures !DebtToEquity(2.0) && !PriceToEarnings(20.0)
  {
  }

  lemma VolumeUpwardClosed(v: real, w: real)
    requires Volume(v) && v <= w
    ensures Volume(w)
  {
  }

  lemma ReturnOnEquityUpwardClosed(v: real, w: real)
    requires ReturnOnEquity(v) && v <= w
    ensures ReturnOnEquity(w)
  {
  }

  lemma DebtToEquityDownwardClosed(v: real, w: real)
    requires DebtToEquity(v) && w <= v
    ensures DebtToEquity(w)
  {
  }

  lemma PriceToEarningsDownwardClosed(v: real, w: real)
    requires PriceToEarnings(v) && w <= v
    ensures PriceToEarnings(w)
  {
  }
}
