/**
 * The dashboard's news list: one entry per article, with an optional image
 * column and a chip linking to each related symbol, or an empty-state message.
 */
module StockNewsList {
  import opened Wrappers
  import opened Text
  import opened Ui

  /** A symbol chip: where it links to and what it reads. */
  datatype Chip = Chip(href: string, text: string)

  function ChipFor(symbol: string): Chip {
    Chip("/dashboard/stock/" + Trim(symbol), "$" + Trim(symbol))
  }

  /** `relatedSymbols.split(',')`, one chip per piece, each piece trimmed. */
  function Chips(relatedSymbols: string): (r: seq<Chip>)
    ensures |r| == |Split(relatedSymbols, ',')|
    ensures forall i :: 0 <= i < |r| ==> r[i] == ChipFor(Split(relatedSymbols, ',')[i])
  {
    var pieces := Split(relatedSymbols, ',');
    seq(|pieces|, i requires 0 <= i < |pieces| => ChipFor(pieces[i]))
  }

  /**
   * There is one chip more than there are commas, empty pieces included, and each
   * chip's symbol is comma-free and starts and ends with a non-blank character.
   */
  lemma ChipsShape(relatedSymbols: string)
    ensures |Chips(relatedSymbols)| == Count(relatedSymbols, ',') + 1
    ensures forall i :: 0 <= i < |Chips(relatedSymbols)| ==>
      var sym := Trim(Split(relatedSymbols, ',')[i]);
      Chips(relatedSymbols)[i] == Chip("/dashboard/stock/" + sym, "$" + sym) && ',' !in sym
        && (sym != [] ==> !IsWhitespace(sym[0]) && !IsWhitespace(sym[|sym| - 1]))
  {
    SplitCount(relatedSymbols, ',');
    SplitPiecesFree(relatedSymbols, ',');
    var pieces := Split(relatedSymbols, ',');
    forall i | 0 <= i < |pieces|
      ensures CleanSymbol(Trim(pieces[i]))
    {
      CleanPiece(pieces[i]);
    }
  }

  /** A symbol as a chip shows it: no comma, and no whitespace at either end. */
  predicate CleanSymbol(sym: string) {
    ',' !in sym && (sym != [] ==> !IsWhitespace(sym[0]) && !IsWhitespace(sym[|sym| - 1]))
  }

  /** Trimming a comma-free piece gives a clean symbol. */
  lemma CleanPiece(piece: string)
    requires ',' !in piece
    ensures CleanSymbol(Trim(piece))
  {
    TrimShape(piece);
    if ',' in Trim(piece) {
      TrimSubset(piece, ',');
    }
  }

  /**
   * A comma-joined list of clean symbols, as the backend stores them, gives back
   * one chip per symbol, in order.
   */
  lemma ChipsOfJoined(symbols: seq<string>)
    requires |symbols| >= 1
    requires forall k :: 0 <= k < |symbols| ==> ',' !in symbols[k] && Trim(symbols[k]) == symbols[k]
    ensures |Chips(Join(symbols, ','))| == |symbols|
    ensures forall k :: 0 <= k < |symbols| ==>
      Chips(Join(symbols, ','))[k] == Chip("/dashboard/stock/" + symbols[k], "$" + symbols[k])
  {
    SplitJoin(symbols, ',');
  }

  /** How an article is laid out: the image column, when there is one, and the text column's width. */
  datatype Layout = Layout(image: Option<string>, textWidth: string)

  function LayoutOf(item: NewsItem): (l: Layout)
    ensures l.image.Some? <==> Truthy(item.imageUrl)
    ensures l.image.Some? ==> l.image == item.imageUrl
    ensures l.textWidth == (if Truthy(item.imageUrl) then "md:w-3/4" else "w-full")
  {
    if Truthy(item.imageUrl) then Layout(item.imageUrl, "md:w-3/4") else Layout(None, "w-full")
  }

  datatype Article = Article(title: string, source: string, summary: string, layout: Layout, chips: seq<Chip>, url: string)

  const NoNews := "No news available at the moment."

  /**
   * What the list shows. `Thrown` is the TypeError React raises while rendering
   * when an article's `relatedSymbols` is null: `split` is called on it unguarded.
   */
  datatype NewsView = EmptyNews(message: string) | Articles(items: seq<Article>) | Thrown(error: string)

  const NullSplit := "Cannot read properties of null (reading 'split')"

  /** Every article carries a related-symbols string. */
  predicate SymbolsPresent(news: seq<NewsItem>) {
    forall i :: 0 <= i < |news| ==> news[i].relatedSymbols.Some?
  }

  function Render(news: seq<NewsItem>): (v: NewsView)
    ensures v.EmptyNews? <==> |news| == 0
    ensures v.EmptyNews? ==> v.message == NoNews
    ensures v.Thrown? <==> |news| > 0 && exists i :: 0 <= i < |news| && news[i].relatedSymbols.None?
    ensures v.Thrown? ==> v.error == NullSplit
    ensures v.Articles? ==> |v.items| == |news|
    ensures v.Articles? ==> forall i :: 0 <= i < |news| ==>
      news[i].relatedSymbols.Some? &&
      v.items[i] == Article(news[i].title, news[i].source, news[i].summary, LayoutOf(news[i]),
                            Chips(news[i].relatedSymbols.value), news[i].url)
  {
    if |news| == 0 then EmptyNews(NoNews)
    else if !SymbolsPresent(news) then Thrown(NullSplit)
    else
      Articles(seq(|news|, i requires 0 <= i < |news| =>
        Article(news[i].title, news[i].source, news[i].summary, LayoutOf(news[i]), Chips(news[i].relatedSymbols.value), news[i].url)))
  }
}
