/**
 * News queries: the latest articles, the articles mentioning one symbol, and the
 * feed for a user's portfolio, merged from the per-symbol lists of every stock the
 * user holds, newest first and cut to the requested count.
 */
module NewsService {
  import opened Wrappers
  import opened Text
  import opened Entities
  import opened Tables
  import opened UserService

  /** Articles in descending order of publication time. */
  predicate NewestFirst(s: seq<StockNews>) {
    forall i :: 0 < i < |s| ==> s[i - 1].publishedAt >= s[i].publishedAt
  }

  /** Places x after every article at least as recent, so equal times keep their arrival order. */
  function Insert(s: seq<StockNews>, x: StockNews): (r: seq<StockNews>)
    requires NewestFirst(s)
    ensures |r| == |s| + 1
    ensures r[0] == x || (s != [] && r[0] == s[0])
    ensures forall y :: y in r ==> y in s || y == x
    ensures NewestFirst(r)
    ensures multiset(r) == multiset(s) + multiset{x}
  {
    if s == [] then [x]
    else if s[0].publishedAt >= x.publishedAt then
      var rest := Insert(s[1..], x);
      assert s == [s[0]] + s[1..];
      [s[0]] + rest
    else
      assert s == [s[0]] + s[1..];
      [x] + s
  }

  /** A stable sort by publication time, newest first: the stream `sorted` of the source and the repositories' `ORDER BY publishedAt DESC`. */
  function SortNewestFirst(s: seq<StockNews>): (r: seq<StockNews>)
    ensures |r| == |s|
    ensures forall y :: y in r ==> y in s
    ensures NewestFirst(r)
    ensures multiset(r) == multiset(s)
  {
    if s == [] then []
    else
      var init, last := s[..|s| - 1], s[|s| - 1];
      assert s == init + [last];
      assert forall y :: y in init ==> y in s;
      Insert(SortNewestFirst(init), last)
  }

  /** Newest-first order between neighbours orders every pair. */
  lemma {:induction false} NewestFirstPairs(s: seq<StockNews>)
    requires NewestFirst(s)
    ensures forall i, j :: 0 <= i <= j < |s| ==> s[i].publishedAt >= s[j].publishedAt
  {
    if s != [] {
      var init := s[..|s| - 1];
      assert NewestFirst(init);
      NewestFirstPairs(init);
      forall i, j | 0 <= i <= j < |s|
        ensures s[i].publishedAt >= s[j].publishedAt
      {
        if j < |s| - 1 {
          assert init[i] == s[i] && init[j] == s[j];
        } else if i < j {
          assert init[i] == s[i] && init[j - 1] == s[j - 1];
        }
      }
    }
  }

  /** Inserting an article no newer than the rest appends it. */
  lemma {:induction false} InsertOldest(s: seq<StockNews>, x: StockNews)
    requires NewestFirst(s)
    requires forall i :: 0 <= i < |s| ==> s[i].publishedAt >= x.publishedAt
    ensures Insert(s, x) == s + [x]
  {
    if s != [] {
      InsertOldest(s[1..], x);
      assert [s[0]] + (s[1..] + [x]) == s + [x];
    }
  }

  /** In a newest-first list the rest is newest first and no newer than the last article. */
  lemma LastIsOldest(s: seq<StockNews>)
    requires NewestFirst(s) && s != []
    ensures NewestFirst(s[..|s| - 1])
    ensures forall i :: 0 <= i < |s| - 1 ==> s[i].publishedAt >= s[|s| - 1].publishedAt
  {
    NewestFirstPairs(s);
  }

  /** Sorting a list that is already newest first leaves it unchanged, ties included. */
  lemma {:induction false} SortSortedIsIdentity(s: seq<StockNews>)
    requires NewestFirst(s)
    ensures SortNewestFirst(s) == s
  {
    if s != [] {
      var init, last := s[..|s| - 1], s[|s| - 1];
      LastIsOldest(s);
      SortSortedIsIdentity(init);
      InsertOldest(init, last);
      assert init + [last] == s;
    }
  }

  /** The articles of s published at time t, in their order in s. */
  function AtTime(s: seq<StockNews>, t: int): seq<StockNews> {
    if s == [] then [] else (if s[0].publishedAt == t then [s[0]] else []) + AtTime(s[1..], t)
  }

  /** Selecting one time distributes over concatenation. */
  lemma {:induction false} AtTimeAppend(a: seq<StockNews>, b: seq<StockNews>, t: int)
    ensures AtTime(a + b, t) == AtTime(a, t) + AtTime(b, t)
  {
    if a == [] {
      assert a + b == b;
    } else {
      var head := if a[0].publishedAt == t then [a[0]] else [];
      assert (a + b)[0] == a[0] && (a + b)[1..] == a[1..] + b;
      assert AtTime(a + b, t) == head + AtTime(a[1..] + b, t);
      AtTimeAppend(a[1..], b, t);
      assert head + (AtTime(a[1..], t) + AtTime(b, t)) == (head + AtTime(a[1..], t)) + AtTime(b, t);
    }
  }

  /** A list with no article at time t selects nothing. */
  lemma {:induction false} AtTimeNone(s: seq<StockNews>, t: int)
    requires forall i :: 0 <= i < |s| ==> s[i].publishedAt != t
    ensures AtTime(s, t) == []
  {
    if s != [] {
      AtTimeNone(s[1..], t);
    }
  }

  /** Dropping the newest article keeps a list newest first. */
  lemma NewestFirstTail(s: seq<StockNews>)
    requires NewestFirst(s) && s != []
    ensures NewestFirst(s[1..])
  {
    forall i | 0 < i < |s| - 1
      ensures s[1..][i - 1].publishedAt >= s[1..][i].publishedAt
    {
      assert s[1..][i - 1] == s[i] && s[1..][i] == s[i + 1];
    }
  }

  /** An article no newer than the first goes behind it. */
  lemma InsertBehind(s: seq<StockNews>, x: StockNews)
    requires NewestFirst(s) && s != [] && s[0].publishedAt >= x.publishedAt
    ensures NewestFirst(s[1..])
    ensures Insert(s, x) == [s[0]] + Insert(s[1..], x)
  {
    NewestFirstTail(s);
  }

  /** The step of InsertStable where x goes behind the first article. */
  lemma InsertBehindStable(s: seq<StockNews>, x: StockNews, t: int)
    requires NewestFirst(s) && s != [] && s[0].publishedAt >= x.publishedAt
    requires NewestFirst(s[1..])
    requires AtTime(Insert(s[1..], x), t) == AtTime(s[1..], t) + (if x.publishedAt == t then [x] else [])
    ensures AtTime(Insert(s, x), t) == AtTime(s, t) + (if x.publishedAt == t then [x] else [])
  {
    InsertBehind(s, x);
    ConsKeepsAtTime(s[0], Insert(s[1..], x), s[1..], if x.publishedAt == t then [x] else [], t);
    assert s == [s[0]] + s[1..];
  }

  /** Putting the same article in front of two lists with related selections keeps the relation. */
  lemma ConsKeepsAtTime(y: StockNews, r: seq<StockNews>, s: seq<StockNews>, tail: seq<StockNews>, t: int)
    requires AtTime(r, t) == AtTime(s, t) + tail
    ensures AtTime([y] + r, t) == AtTime([y] + s, t) + tail
  {
    AtTimeCons(y, r, t);
    AtTimeCons(y, s, t);
  }

  /** Selecting one time from a list with a first article. */
  lemma AtTimeCons(y: StockNews, rest: seq<StockNews>, t: int)
    ensures AtTime([y] + rest, t) == (if y.publishedAt == t then [y] else []) + AtTime(rest, t)
  {
    assert ([y] + rest)[0] == y && ([y] + rest)[1..] == rest;
  }

  /** An article newer than every article of a newest-first list goes in front, and no article there shares its time. */
  lemma InsertNewest(s: seq<StockNews>, x: StockNews, t: int)
    requires NewestFirst(s) && s != [] && s[0].publishedAt < x.publishedAt
    ensures AtTime(Insert(s, x), t) == AtTime(s, t) + (if x.publishedAt == t then [x] else [])
  {
    assert Insert(s, x) == [x] + s;
    AtTimeCons(x, s, t);
    if x.publishedAt == t {
      NewestFirstPairs(s);
      AtTimeNone(s, t);
    }
  }

  /** Insertion keeps the articles of each publication time in their order, x after those already there. */
  lemma {:induction false} InsertStable(s: seq<StockNews>, x: StockNews, t: int)
    requires NewestFirst(s)
    ensures AtTime(Insert(s, x), t) == AtTime(s, t) + (if x.publishedAt == t then [x] else [])
  {
    if s == [] {
      AtTimeCons(x, [], t);
      assert Insert(s, x) == [x] + [];
    } else if s[0].publishedAt >= x.publishedAt {
      NewestFirstTail(s);
      InsertStable(s[1..], x, t);
      InsertBehindStable(s, x, t);
    } else {
      InsertNewest(s, x, t);
    }
  }

  /**
   * The sort is stable: the articles published at any one time come out in the
   * order they went in.
   */
  lemma {:induction false} SortStable(s: seq<StockNews>, t: int)
    ensures AtTime(SortNewestFirst(s), t) == AtTime(s, t)
  {
    if s != [] {
      var init, last := s[..|s| - 1], s[|s| - 1];
      assert s == init + [last];
      SortStable(init, t);
      InsertStable(SortNewestFirst(init), last, t);
      AtTimeAppend(init, [last], t);
      assert AtTime([last], t) == (if last.publishedAt == t then [last] else []) by {
        assert [last][1..] == [];
      }
    }
  }

  /** The first count articles (`limit`, and a page of that size). */
  function Take(s: seq<StockNews>, count: nat): (r: seq<StockNews>)
    ensures |r| <= count && |r| <= |s|
    ensures |s| > count ==> |r| == count
    ensures r <= s && forall y :: y in r ==> y in s
    ensures |s| <= count ==> r == s
  {
    if |s| <= count then s else s[..count]
  }

  /** A prefix of a newest-first list is newest first. */
  lemma TakeNewestFirst(s: seq<StockNews>, count: nat)
    requires NewestFirst(s)
    ensures NewestFirst(Take(s, count))
  {
  }

  /** The articles of the table with ids below n, in id order. */
  function AllNews(news: map<nat, StockNews>, n: nat): (r: seq<StockNews>)
    ensures forall a :: a in r ==> a in news.Values
    ensures forall k :: k in news && k < n ==> news[k] in r
  {
    if n == 0 then []
    else AllNews(news, n - 1) + (if n - 1 in news then [news[n - 1]] else [])
  }

  /**
   * r is the count most recent articles of s: as many as s has, up to count, newest
   * first, each taken from s, and every article of s left out no newer than the
   * last one taken.
   */
  predicate LatestOf(r: seq<StockNews>, s: seq<StockNews>, count: int) {
    && |r| == (if |s| < count then |s| else count)
    && NewestFirst(r)
    && multiset(r) <= multiset(s)
    && forall a :: a in s && a !in r ==> r != [] && a.publishedAt <= r[|r| - 1].publishedAt
  }

  /** In a newest-first list, an article past the first k is no newer than the k-th. */
  lemma LeftOutIsOlder(sorted: seq<StockNews>, k: nat, a: StockNews)
    requires NewestFirst(sorted) && 1 <= k <= |sorted|
    requires a in sorted && a !in sorted[..k]
    ensures a.publishedAt <= sorted[k - 1].publishedAt
  {
    var j :| 0 <= j < |sorted| && sorted[j] == a;
    NewestFirstPairs(sorted);
  }

  /** A prefix takes no article more often than the list has it. */
  lemma PrefixSubMultiset(r: seq<StockNews>, s: seq<StockNews>)
    requires r <= s
    ensures multiset(r) <= multiset(s)
  {
    assert s == r + s[|r|..];
  }

  /** The first count articles of a newest-first arrangement of s are the count most recent ones of s. */
  lemma LatestPrefix(sorted: seq<StockNews>, s: seq<StockNews>, count: nat)
    requires count >= 1 && NewestFirst(sorted) && |sorted| == |s| && multiset(sorted) == multiset(s)
    ensures LatestOf(Take(sorted, count), s, count)
  {
    var r := Take(sorted, count);
    TakeNewestFirst(sorted, count);
    PrefixSubMultiset(r, sorted);
    forall a | a in s && a !in r
      ensures r != [] && a.publishedAt <= r[|r| - 1].publishedAt
    {
      assert a in multiset(sorted) by {
        assert a in multiset(s);
      }
      assert r == sorted[..|r|] && |r| >= 1;
      LeftOutIsOlder(sorted, |r|, a);
    }
  }

  /** Sorting newest first and taking count articles selects the count most recent ones. */
  lemma LatestSelection(s: seq<StockNews>, count: nat)
    requires count >= 1
    ensures LatestOf(Take(SortNewestFirst(s), count), s, count)
  {
    LatestPrefix(SortNewestFirst(s), s, count);
  }

  /** `relatedSymbols LIKE %symbol%`: the symbol occurs somewhere in the comma-joined list; an absent list matches nothing. */
  predicate Mentions(a: StockNews, symbol: string) {
    a.relatedSymbols.Some? && Contains(a.relatedSymbols.value, symbol)
  }

  function Mentioning(s: seq<StockNews>, symbol: string): (r: seq<StockNews>)
    ensures forall a :: a in r <==> a in s && Mentions(a, symbol)
  {
    if s == [] then []
    else Mentioning(s[..|s| - 1], symbol) + (if Mentions(s[|s| - 1], symbol) then [s[|s| - 1]] else [])
  }

  /** `PageRequest.of(0, count)` rejects a page size below one. */
  const PageSizeError: Error := IllegalArgument("Page size must not be less than one")

  /** Filtering distributes over concatenation: the kept articles stay in their order. */
  lemma {:induction false} MentioningAppend(a: seq<StockNews>, b: seq<StockNews>, symbol: string)
    ensures Mentioning(a + b, symbol) == Mentioning(a, symbol) + Mentioning(b, symbol)
    decreases |b|
  {
    if b == [] {
      assert a + b == a;
    } else {
      var b', x := b[..|b| - 1], b[|b| - 1];
      assert (a + b)[..|a + b| - 1] == a + b' && (a + b)[|a + b| - 1] == x;
      MentioningAppend(a, b', symbol);
    }
  }

  /** Each article is kept as often as it occurs when it mentions the symbol, and dropped otherwise. */
  lemma {:induction false} MentioningCounts(s: seq<StockNews>, symbol: string, a: StockNews)
    ensures multiset(Mentioning(s, symbol))[a] == if Mentions(a, symbol) then multiset(s)[a] else 0
  {
    if s != [] {
      var init, x := s[..|s| - 1], s[|s| - 1];
      MentioningCounts(init, symbol, a);
      assert s == init + [x];
    }
  }

  /** `getLatestNews`: the count most recent articles. */
  function LatestNews(news: map<nat, StockNews>, n: nat, count: int): (r: Result<seq<StockNews>>)
    ensures r.Failure? <==> count < 1
    ensures r.Failure? ==> r.error == PageSizeError
    ensures r.Success? ==> |r.value| <= count && NewestFirst(r.value)
    ensures r.Success? ==> forall a :: a in r.value ==> a in news.Values
    ensures r.Success? ==> LatestOf(r.value, AllNews(news, n), count)
  {
    if count < 1 then Failure(PageSizeError)
    else
      var sorted := SortNewestFirst(AllNews(news, n));
      TakeNewestFirst(sorted, count);
      LatestSelection(AllNews(news, n), count);
      Success(Take(sorted, count))
  }

  /** `findByStockSymbol` with the page `PageRequest.of(0, count)`: the count most recent articles mentioning the symbol. */
  function FindByStockSymbol(news: map<nat, StockNews>, n: nat, symbol: string, count: nat): seq<StockNews> {
    Take(SortNewestFirst(Mentioning(AllNews(news, n), symbol)), count)
  }

  /** `getNewsForStock`: the page check, then `findByStockSymbol`. */
  function NewsForStock(news: map<nat, StockNews>, n: nat, symbol: string, count: int): (r: Result<seq<StockNews>>)
    ensures r.Failure? <==> count < 1
    ensures r.Failure? ==> r.error == PageSizeError
    ensures r.Success? ==> |r.value| <= count && NewestFirst(r.value)
    ensures r.Success? ==> forall a :: a in r.value ==> a in news.Values && Mentions(a, symbol)
    ensures r.Success? ==> LatestOf(r.value, Mentioning(AllNews(news, n), symbol), count)
  {
    if count < 1 then Failure(PageSizeError)
    else
      var matching := Mentioning(AllNews(news, n), symbol);
      TakeNewestFirst(SortNewestFirst(matching), count);
      LatestSelection(matching, count);
      Success(FindByStockSymbol(news, n, symbol, count))
  }

  /** The lists `page` gives for the given symbols, one after another. */
  function Concat(page: string -> seq<StockNews>, symbols: seq<string>): seq<StockNews> {
    if symbols == [] then []
    else Concat(page, symbols[..|symbols| - 1]) + page(symbols[|symbols| - 1])
  }

  /** One more symbol appends its list. */
  lemma ConcatSnoc(page: string -> seq<StockNews>, symbols: seq<string>, x: string)
    ensures Concat(page, symbols + [x]) == Concat(page, symbols) + page(x)
  {
    var s := symbols + [x];
    assert s[..|s| - 1] == symbols && s[|s| - 1] == x;
  }

  /** Two symbols give the first one's list, then the second's. */
  lemma ConcatTwo(page: string -> seq<StockNews>, s1: string, s2: string)
    ensures Concat(page, [s1, s2]) == page(s1) + page(s2)
  {
    var none: seq<string> := [];
    ConcatSnoc(page, none, s1);
    assert none + [s1] == [s1];
    assert [] + page(s1) == page(s1);
    ConcatSnoc(page, [s1], s2);
    assert [s1] + [s2] == [s1, s2];
  }

  /** The page of news for one symbol, as a function of the symbol. */
  function SymbolPage(news: map<nat, StockNews>, n: nat, count: nat): string -> seq<StockNews> {
    s => FindByStockSymbol(news, n, s, count)
  }

  /** A symbol's page holds stored articles that mention it. */
  lemma PageMentionsSymbol(news: map<nat, StockNews>, n: nat, count: nat, symbol: string)
    ensures forall a :: a in SymbolPage(news, n, count)(symbol) ==> a in news.Values && Mentions(a, symbol)
  {
    var l := FindByStockSymbol(news, n, symbol, count);
    assert SymbolPage(news, n, count)(symbol) == l;
    var matching := Mentioning(AllNews(news, n), symbol);
    forall a | a in l
      ensures a in news.Values && Mentions(a, symbol)
    {
      assert a in SortNewestFirst(matching);
      assert a in matching;
    }
  }

  /** The per-symbol lists for the given symbols, one after another, as the loop of `getNewsForUserPortfolio` collects them. */
  function Merged(news: map<nat, StockNews>, n: nat, symbols: seq<string>, count: int): seq<StockNews>
    requires count >= 1
  {
    Concat(SymbolPage(news, n, count), symbols)
  }

  /** Every collected article comes from the list of one of the symbols. */
  lemma {:induction false} ConcatFrom(page: string -> seq<StockNews>, symbols: seq<string>, a: StockNews)
    requires a in Concat(page, symbols)
    ensures exists s :: s in symbols && a in page(s)
  {
    var init, last := symbols[..|symbols| - 1], symbols[|symbols| - 1];
    if a in Concat(page, init) {
      ConcatFrom(page, init, a);
      var s :| s in init && a in page(s);
      assert s in symbols;
    } else {
      assert a in page(last);
    }
  }

  /** Every collected article is in the table and mentions one of the symbols. */
  lemma MergedMentionsSymbols(news: map<nat, StockNews>, n: nat, symbols: seq<string>, count: int)
    requires count >= 1
    ensures forall a :: a in Merged(news, n, symbols, count) ==>
      a in news.Values && exists s :: s in symbols && Mentions(a, s)
  {
    var page := SymbolPage(news, n, count);
    forall a | a in Concat(page, symbols)
      ensures a in news.Values && exists s :: s in symbols && Mentions(a, s)
    {
      ConcatFrom(page, symbols, a);
      var s :| s in symbols && a in page(s);
      PageMentionsSymbol(news, n, count, s);
    }
  }

  /**
   * The loop of `getNewsForUserPortfolio`: each symbol's list, as `page` fetches
   * it, appended in turn.
   */
  method CollectNews(page: string -> seq<StockNews>, symbols: seq<string>) returns (all: seq<StockNews>)
    ensures all == Concat(page, symbols)
  {
    all := [];
    var i := 0;
    while i < |symbols|
      invariant 0 <= i <= |symbols|
      invariant all == Concat(page, symbols[..i])
    {
      ConcatSnoc(page, symbols[..i], symbols[i]);
      assert symbols[..i] + [symbols[i]] == symbols[..i + 1];
      all := all + page(symbols[i]);
      i := i + 1;
    }
    assert symbols[..|symbols|] == symbols;
  }

  /**
   * `getNewsForUserPortfolio`: with no holdings, the latest news; otherwise the
   * per-symbol lists for the user's distinct symbols, concatenated, sorted newest
   * first and cut to count. Articles are not de-duplicated.
   */
  method GetNewsForUserPortfolio(db: Database, userId: nat, count: int) returns (r: Result<seq<StockNews>>)
    requires db.Valid()
    ensures userId !in db.users ==> r == Failure(UserNotFound(userId))
    ensures userId in db.users ==>
      var symbols := FindDistinctSymbolsByUser(db.holdings, db.nextHoldingId, userId);
      && (symbols == [] ==> r == LatestNews(db.news, db.nextNewsId, count))
      && (symbols != [] && count < 1 ==> r == Failure(PageSizeError))
      && (symbols != [] && count >= 1 ==>
            r == Success(Take(SortNewestFirst(Merged(db.news, db.nextNewsId, symbols, count)), count)))
    ensures r.Success? ==> |r.value| <= count && NewestFirst(r.value)
    ensures r.Success? ==> forall a :: a in r.value ==> a in db.news.Values
  {
    var user := GetUserById(db, userId);
    if user.Failure? {
      return Failure(user.error);
    }
    var symbols := FindDistinctSymbolsByUser(db.holdings, db.nextHoldingId, userId);
    if symbols == [] {
      return LatestNews(db.news, db.nextNewsId, count);
    }
    if count < 1 {
      return Failure(PageSizeError);
    }
    var allNews := CollectNews(SymbolPage(db.news, db.nextNewsId, count), symbols);
    MergedMentionsSymbols(db.news, db.nextNewsId, symbols, count);
    var sorted := SortNewestFirst(allNews);
    TakeNewestFirst(sorted, count);
    r := Success(Take(sorted, count));
  }

  /** The loop over two symbols collects the first symbol's list, then the second's. */
  lemma MergedTwo(news: map<nat, StockNews>, n: nat, s1: string, s2: string, count: int)
    requires count >= 1
    ensures Merged(news, n, [s1, s2], count)
         == FindByStockSymbol(news, n, s1, count) + FindByStockSymbol(news, n, s2, count)
  {
    var page := SymbolPage(news, n, count);
    ConcatTwo(page, s1, s2);
    assert page(s1) == FindByStockSymbol(news, n, s1, count);
    assert page(s2) == FindByStockSymbol(news, n, s2, count);
  }

  /**
   * An article in the per-symbol lists of two held symbols is collected twice, and
   * when nothing is cut off it is in the feed twice: the feed does not de-duplicate.
   */
  lemma ArticleListedOncePerSymbol(news: map<nat, StockNews>, n: nat, s1: string, s2: string, count: int, a: StockNews)
    requires count >= 1
    requires a in FindByStockSymbol(news, n, s1, count) && a in FindByStockSymbol(news, n, s2, count)
    ensures multiset(Merged(news, n, [s1, s2], count))[a] >= 2
    ensures |Merged(news, n, [s1, s2], count)| <= count ==>
      multiset(Take(SortNewestFirst(Merged(news, n, [s1, s2], count)), count))[a] >= 2
  {
    var l1, l2 := FindByStockSymbol(news, n, s1, count), FindByStockSymbol(news, n, s2, count);
    MergedTwo(news, n, s1, s2, count);
    var merged := Merged(news, n, [s1, s2], count);
    assert multiset(merged) == multiset(l1) + multiset(l2);
    assert multiset(l1)[a] >= 1 && multiset(l2)[a] >= 1;
  }
}
