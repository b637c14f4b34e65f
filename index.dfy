/** The inline copy of the screening configuration in the entry
    script: the same sector list and the same four predicates, written with
    literal thresholds instead of named constants. */
module Index {
  import opened Text
  import Config

  const Sectors: seq<string> := [
    "Communication Services",
    "Consumer Discretionary",
    "Consumer Staples",
    "Energy",
    "Financials",
    "Health Care",
    "Industrials",
    "Information Technology",
    "Materials",
    "Real Estate",
    "Utilities"
  ]

  predicate Volume(value: real) { value > 250000.0 }

  predicate ReturnOnEquity(value: real) { value > 10.0 }

  predicate DebtToEquity(value: real) { value < 2.0 }

  predicate PriceToEarnings(value: real) { value < 20.0 }

  /** The inline list is the shared list, element by element. */
  lemma SectorsMatchConfig()
    ensures |Sectors| == |Config.Sectors|
    ensures forall i :: 0 <= i < |Sectors| ==> Sectors[i] == Config.Sectors[i]
  {
  }

  /** Hence the inline list too has eleven distinct entries in ascending order. */
  lemma SectorsSortedAndDistinct()
    ensures |Sectors| == 11
    ensures StrictlyAscending(Sectors)
    ensures PairwiseDistinct(Sectors)
  {
    SectorsMatchConfig();
    assert Sectors == Config.Sectors;
    Config.SectorsSortedAndDistinct();
  }

  /** For every value, each inline predicate answers as its shared counterpart. */
  lemma PredicatesMatchConfig(v: real)
    ensures Volume(v) == Config.Volume(v)
    ensures ReturnOnEquity(v) == Config.ReturnOnEquity(v)
    ensures DebtToEquity(v) == Config.DebtToEquity(v)
    ensures PriceToEarnings(v) == Config.PriceToEarnings(v)
  {
  }

  /** The literal thresholds, with the same strictness: each boundary fails. */
  lemma Thresholds(v: real)
    ensures Volume(v) <==> v > 250000.0
    ensures ReturnOnEquity(v) <==> v > 10.0
    ensures DebtToEquity(v) <==> v < 2.0
    ensures PriceToEarnings(v) <==> v < 20.0
    ensures !Volume(250000.0) && !ReturnOnEquity(10.0)
    ensures !DebtToEquity(2.0) && !PriceToEarnings(20.0)
  {
  }

  /** Volume and return on equity: a larger value passes whenever a smaller one does. */
  lemma UpwardClosed(v: real, w: real)
    requires v <= w
    ensures Volume(v) ==> Volume(w)
    ensures ReturnOnEquity(v) ==> ReturnOnEquity(w)
  {
  }

  /** Debt to equity and price to earnings: a smaller value passes whenever a larger one does. */
  lemma DownwardClosed(v: real, w: real)
    requires w <= v
    ensures DebtToEquity(v) ==> DebtToEquity(w)
    ensures PriceToEarnings(v) ==> PriceToEarnings(w)
  {
  }
}
