/** The ticker-to-sector lookup that derives the `Sector` column. */
module Sectors {

  datatype Sector = Tech | Consumer | Industrial {
    function Name(): string {
      match this
      case Tech => "Tech"
      case Consumer => "Consumer"
      case Industrial => "Industrial"
    }
  }

  const TechStocks: seq<string> := ["AAPL", "MSFT", "GOOGL", "NVDA", "META"]
  const ConsumerStocks: seq<string> := ["AMZN", "NFLX"]
  /** Declared next to the other two lists but never consulted: these tickers reach the default branch. */
  const IndustrialStocks: seq<string> := ["BA", "AMD"]

  /** The conditional chain: Tech list first, then Consumer list, otherwise Industrial. */
  function SectorOf(ticker: string): (s: Sector)
    ensures s == Tech <==> ticker in TechStocks
    ensures s == Consumer <==> ticker in ConsumerStocks
    ensures s == Industrial <==> ticker !in TechStocks + ConsumerStocks
  {
    if ticker in TechStocks then Tech
    else if ticker in ConsumerStocks then Consumer
    else Industrial
  }

  /** The lookup read as a table of the seven mapped tickers with an Industrial fallback. */
  const SectorTable: map<string, Sector> := map[
    "AAPL" := Tech, "MSFT" := Tech, "GOOGL" := Tech, "NVDA" := Tech, "META" := Tech,
    "AMZN" := Consumer, "NFLX" := Consumer]

  /** The ordered chain agrees with the table, so the order of its tests does not matter. */
  lemma SectorOfMatchesTable(ticker: string)
    ensures SectorOf(ticker) == (if ticker in SectorTable then SectorTable[ticker] else Industrial)
  {
  }

  /** The unused industrial list agrees with the fallback, and an unmapped ticker falls back too. */
  lemma SectorExamples()
    ensures forall t :: t in IndustrialStocks ==> SectorOf(t) == Industrial
    ensures SectorOf("AAPL") == Tech && SectorOf("AMZN") == Consumer && SectorOf("NFLX") == Consumer
    ensures SectorOf("BA") == Industrial && SectorOf("AMD") == Industrial && SectorOf("XOM") == Industrial
  {
  }
}
