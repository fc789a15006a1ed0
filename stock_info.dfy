/**
 * The company panel of a stock page. Its sector and industry are picked from
 * fixed lists by the character codes of the symbol, and its website is made from
 * the symbol.
 */
module StockInfo {
  import opened Wrappers
  import opened Text

  const Sectors: seq<string> := [
    "Technology",
    "Healthcare",
    "Financial Services",
    "Consumer Cyclical",
    "Energy",
    "Industrials",
    "Communication Services",
    "Consumer Defensive",
    "Real Estate",
    "Utilities",
    "Basic Materials"]

  /** The industries listed for each sector. */
  const Industries: map<string, seq<string>> := map[
    "Technology" := ["Software", "Semiconductors", "Hardware", "IT Services", "Consumer Electronics"],
    "Healthcare" := ["Biotechnology", "Pharmaceuticals", "Medical Devices", "Healthcare Services", "Health Insurance"],
    "Financial Services" := ["Banks", "Insurance", "Asset Management", "Credit Services", "Capital Markets"],
    "Consumer Cyclical" := ["Retail", "Automotive", "Entertainment", "Restaurants", "Travel & Leisure"],
    "Energy" := ["Oil & Gas", "Renewable Energy", "Coal", "Natural Gas", "Energy Equipment & Services"],
    "Industrials" := ["Aerospace & Defense", "Construction", "Machinery", "Transportation", "Business Services"],
    "Communication Services" := ["Telecom", "Media", "Social Media", "Entertainment", "Advertising"],
    "Consumer Defensive" := ["Food & Beverages", "Household Products", "Personal Products", "Tobacco", "Discount Stores"],
    "Real Estate" := ["REITs", "Real Estate Services", "Development", "Property Management", "Real Estate Holding"],
    "Utilities" := ["Electric Utilities", "Gas Utilities", "Water Utilities", "Renewable Utilities", "Multi-Utilities"],
    "Basic Materials" := ["Chemicals", "Metals & Mining", "Paper & Forest Products", "Construction Materials", "Agriculture"]]

  /** Every sector has a list of five industries, so the Technology fallback is never needed. */
  lemma EverySectorHasIndustries()
    ensures |Sectors| == 11
    ensures forall k :: 0 <= k < |Sectors| ==> Sectors[k] in Industries && |Industries[Sectors[k]]| == 5
  {
  }

  /**
   * `getSectorForSymbol`: the sector at the first character's code modulo 11. An
   * empty symbol has no first character and yields `undefined`, here `None`.
   */
  function SectorFor(symbol: string): (r: Option<string>)
    ensures r.Some? <==> symbol != []
    ensures r.Some? ==> r.value == Sectors[CharCode(symbol[0]) % 11] && r.value in Sectors
  {
    if symbol == [] then None else Some(Sectors[CharCode(symbol[0]) % |Sectors|])
  }

  /** `industries[sector] || industries['Technology']`. */
  function IndustryList(sector: Option<string>): seq<string> {
    if sector.Some? && sector.value in Industries then Industries[sector.value] else Industries["Technology"]
  }

  /**
   * `getIndustryForSymbol`: from the sector's list, the industry at the last
   * character's code modulo the list's length; `None` for an empty symbol.
   */
  function IndustryFor(symbol: string): (r: Option<string>)
    ensures r.Some? <==> symbol != []
  {
    if symbol == [] then None
    else
      var list := IndustryList(SectorFor(symbol));
      Some(list[CharCode(symbol[|symbol| - 1]) % |list|])
  }

  /** The industry always belongs to the symbol's own sector, at the last character's code modulo 5. */
  lemma IndustryInSector(symbol: string)
    requires symbol != []
    ensures SectorFor(symbol).value in Industries
    ensures IndustryFor(symbol).value == Industries[SectorFor(symbol).value][CharCode(symbol[|symbol| - 1]) % 5]
    ensures IndustryFor(symbol).value in Industries[SectorFor(symbol).value]
  {
    EverySectorHasIndustries();
    var k := CharCode(symbol[0]) % 11;
    assert SectorFor(symbol).value == Sectors[k];
  }

  /** Symbols with the same first and last characters get the same sector and industry. */
  lemma SameEndsSameProfile(a: string, b: string)
    requires a != [] && b != [] && a[0] == b[0] && a[|a| - 1] == b[|b| - 1]
    ensures SectorFor(a) == SectorFor(b) && IndustryFor(a) == IndustryFor(b)
  {
  }

  /** The company website, `https://www.` + the lower-cased symbol + `.com`. */
  function Website(symbol: string): string {
    "https://www." + ToLower(symbol) + ".com"
  }

  /** `s.replace(pattern, replacement)` with a string pattern: only the first occurrence is replaced. */
  function ReplaceFirst(s: string, pattern: string, replacement: string): (r: string)
    requires pattern != []
    ensures pattern <= s ==> r == replacement + s[|pattern|..]
  {
    if pattern <= s then replacement + s[|pattern|..]
    else if s == [] then s
    else [s[0]] + ReplaceFirst(s[1..], pattern, replacement)
  }

  /** The link text: the website without its scheme. */
  function WebsiteText(symbol: string): string {
    ReplaceFirst(Website(symbol), "https://", "")
  }

  lemma WebsiteTextDropsScheme(symbol: string)
    ensures Website(symbol) == "https://" + WebsiteText(symbol)
    ensures WebsiteText(symbol) == "www." + ToLower(symbol) + ".com"
  {
    var w := Website(symbol);
    assert "https://" <= w;
    assert w[|"https://"|..] == "www." + ToLower(symbol) + ".com";
  }
}
