/**
 * The dashboard home page: it loads the user's portfolio summaries and then the
 * news for their holdings, chooses between a spinner, an error, a login prompt
 * and the dashboard, and shows totals over all portfolios.
 */
module DashboardPage {
  import opened Wrappers
  import opened Ui

  // ----- aggregates -----

  /** `portfolios.reduce((sum, p) => sum + p.totalValue, 0)`. */
  function TotalValue(ps: seq<PortfolioCard>): real {
    if ps == [] then 0.0 else TotalValue(ps[..|ps| - 1]) + ps[|ps| - 1].totalValue
  }

  /** `portfolios.reduce((sum, p) => sum + p.totalProfitLoss, 0)`. */
  function TotalProfitLoss(ps: seq<PortfolioCard>): real {
    if ps == [] then 0.0 else TotalProfitLoss(ps[..|ps| - 1]) + ps[|ps| - 1].totalProfitLoss
  }

  /** The totals of a concatenation are the sums of the parts' totals. */
  lemma {:induction false} TotalsAppend(a: seq<PortfolioCard>, b: seq<PortfolioCard>)
    ensures TotalValue(a + b) == TotalValue(a) + TotalValue(b)
    ensures TotalProfitLoss(a + b) == TotalProfitLoss(a) + TotalProfitLoss(b)
    decreases |b|
  {
    if b != [] {
      var b' := b[..|b| - 1];
      assert (a + b)[..|a + b| - 1] == a + b';
      TotalsAppend(a, b');
    } else {
      assert a + b == a;
    }
  }

  /** The totals do not depend on the order of the portfolios: moving one to the front changes nothing. */
  lemma TotalsMoveToFront(ps: seq<PortfolioCard>, i: nat)
    requires i < |ps|
    ensures TotalValue([ps[i]] + ps[..i] + ps[i + 1..]) == TotalValue(ps)
    ensures TotalProfitLoss([ps[i]] + ps[..i] + ps[i + 1..]) == TotalProfitLoss(ps)
  {
    SwapFront([ps[i]], ps[..i], ps[i + 1..]);
    SplitAround(ps, i);
  }

  lemma SplitAround(ps: seq<PortfolioCard>, i: nat)
    requires i < |ps|
    ensures ps[..i] + [ps[i]] + ps[i + 1..] == ps
  {
    assert forall k :: 0 <= k < |ps| ==> (ps[..i] + [ps[i]] + ps[i + 1..])[k] == ps[k];
  }

  /** Exchanging the first two of three parts keeps the totals. */
  lemma SwapFront(x: seq<PortfolioCard>, pre: seq<PortfolioCard>, rest: seq<PortfolioCard>)
    ensures TotalValue(x + pre + rest) == TotalValue(pre + x + rest)
    ensures TotalProfitLoss(x + pre + rest) == TotalProfitLoss(pre + x + rest)
  {
    TotalsAppend(x + pre, rest);
    TotalsAppend(x, pre);
    TotalsAppend(pre, x);
    TotalsAppend(pre + x, rest);
  }

  /**
   * `averageProfitLossPercentage`: 0 without portfolios, otherwise the total
   * profit over the total current value, as a percentage. The page does not guard
   * a zero total value; the division is only defined when it is non-zero.
   */
  function ReturnPercentage(ps: seq<PortfolioCard>): (r: real)
    requires |ps| == 0 || TotalValue(ps) != 0.0
    ensures |ps| == 0 ==> r == 0.0
    ensures |ps| > 0 ==> r * TotalValue(ps) == TotalProfitLoss(ps) * 100.0
  {
    if |ps| > 0 then TotalProfitLoss(ps) / TotalValue(ps) * 100.0 else 0.0
  }

  /** With a positive total value the return has the sign of the total profit. */
  lemma ReturnPercentageSign(ps: seq<PortfolioCard>)
    requires |ps| > 0 && TotalValue(ps) > 0.0
    ensures ReturnPercentage(ps) >= 0.0 <==> TotalProfitLoss(ps) >= 0.0
    ensures ReturnPercentage(ps) > 0.0 <==> TotalProfitLoss(ps) > 0.0
  {
    var r := ReturnPercentage(ps);
    var v := TotalValue(ps);
    assert r * v == TotalProfitLoss(ps) * 100.0;
    SignOfProduct(r, v);
  }

  lemma SignOfProduct(r: real, v: real)
    requires v > 0.0
    ensures r >= 0.0 <==> r * v >= 0.0
    ensures r > 0.0 <==> r * v > 0.0
  {
    if r < 0.0 {
      assert r * v < 0.0;
    }
    if r > 0.0 {
      assert r * v > 0.0;
    }
  }

  // ----- rendering -----

  datatype Screen = Spinner | ErrorPanel(message: string) | LoginPrompt | Dashboard

  /** The page's first matching branch: loading, then error, then no user. */
  function ScreenFor(authLoading: bool, isLoading: bool, error: Option<string>, user: Option<SessionUser>): (s: Screen)
    ensures s == Spinner <==> authLoading || isLoading
    ensures s.ErrorPanel? <==> !authLoading && !isLoading && Truthy(error)
    ensures s.ErrorPanel? ==> s.message == error.value
    ensures s == LoginPrompt <==> !authLoading && !isLoading && !Truthy(error) && user.None?
    ensures s == Dashboard <==> !authLoading && !isLoading && !Truthy(error) && user.Some?
  {
    if authLoading || isLoading then Spinner
    else if Truthy(error) then ErrorPanel(error.value)
    else if user.None? then LoginPrompt
    else Dashboard
  }

  // ----- loading -----

  /** The requests the page sends, in order. */
  datatype ApiCall = GetUserPortfolios | GetNewsForPortfolio

  const LoadError := "Failed to load dashboard data."

  class DashboardPageState {
    var portfolios: seq<PortfolioCard>
    var news: seq<NewsItem>
    var isLoading: bool
    var error: Option<string>

    constructor ()
      ensures portfolios == [] && news == [] && isLoading && error.None?
    {
      portfolios := [];
      news := [];
      isLoading := true;
      error := None;
    }

    /**
     * The effect that runs whenever the session's user or loading flag changes.
     * Nothing happens while the session is loading or without a user (and the
     * spinner stays up). Otherwise the portfolios are requested first and the news
     * only after they arrive; either failure sets the one error message, which is
     * never cleared. Loading ends in every case.
     */
    method FetchData(authLoading: bool, user: Option<SessionUser>,
                     portfoliosResponse: ApiOutcome<seq<PortfolioCard>>,
                     newsResponse: ApiOutcome<seq<NewsItem>>)
      returns (calls: seq<ApiCall>)
      modifies this
      ensures authLoading || user.None? ==> calls == [] && unchanged(this)
      ensures !authLoading && user.Some? ==> (!isLoading
        && calls == (if portfoliosResponse.ApiOk? then [GetUserPortfolios, GetNewsForPortfolio] else [GetUserPortfolios])
        && portfolios == (if portfoliosResponse.ApiOk? then portfoliosResponse.value else old(portfolios))
        && news == (if portfoliosResponse.ApiOk? && newsResponse.ApiOk? then newsResponse.value else old(news))
        && error == (if portfoliosResponse.ApiOk? && newsResponse.ApiOk? then old(error) else Some(LoadError)))
    {
      calls := [];
      if authLoading || user.None? {
        return;
      }
      isLoading := true;
      calls := calls + [GetUserPortfolios];
      match portfoliosResponse {
        case ApiFailed(_) =>
          error := Some(LoadError);
        case ApiOk(ps) =>
          portfolios := ps;
          calls := calls + [GetNewsForPortfolio];
          match newsResponse {
            case ApiFailed(_) =>
              error := Some(LoadError);
            case ApiOk(ns) =>
              news := ns;
          }
      }
      isLoading := false;
    }
  }

  /**
   * The first visit of a signed-in user: after one fetch the page shows the
   * dashboard exactly when both requests succeed, and the error panel otherwise.
   */
  method FirstVisit(user: SessionUser, portfoliosResponse: ApiOutcome<seq<PortfolioCard>>,
                    newsResponse: ApiOutcome<seq<NewsItem>>)
    returns (s: Screen)
    ensures s == Dashboard <==> portfoliosResponse.ApiOk? && newsResponse.ApiOk?
    ensures s != Dashboard ==> s == ErrorPanel(LoadError)
  {
    var page := new DashboardPageState();
    var _ := page.FetchData(false, Some(user), portfoliosResponse, newsResponse);
    s := ScreenFor(false, page.isLoading, page.error, Some(user));
  }
}
