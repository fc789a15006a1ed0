# Asset Tracker portfolio core, modelled in Dafny

Asset Tracker is a stock-portfolio application. It has two halves:

- **A Spring backend.** It keeps users, portfolios, stock holdings, stock quotes and news in a relational store. It computes:
  - portfolio totals and profit/loss in exact decimal arithmetic;
  - a holding's merged average price when more of a stock is bought;
  - stock views in other currencies;
  - a newest-first news feed for the stocks a user holds.
- **A React frontend.** It keeps the signed-in session and decides what the dashboard, navbar, charts and news list show. Its forms (add a stock, add to a portfolio, edit a holding row, edit a portfolio) validate input and track their error and submitting state around API calls.

This project models both halves, and proves what each operation promises.

- **Backend tables and services.**
  - The tables are maps held by a `Database` class, and the services update them in place.
  - Every service method states its result and the new state of every table.
  - A failed ownership or existence check leaves the store unchanged.
  - Store integrity is preserved: keys, unique usernames and emails, and at most one holding per (user, stock, portfolio).
- **Decimal arithmetic.** Java's `BigDecimal` is modelled with Dafny `real`, plus one rounding function, `RoundHalfUp(x, scale)`, for `RoundingMode.HALF_UP` and the deprecated `ROUND_HALF_UP`.
- **Frontend components.**
  - Each component with state is a class whose fields are its React state.
  - Each awaited API call is split into two steps: the one that sends the request, and the one that handles the outcome.
  - The outcome is a parameter: success with a body, or failure with the server's optional message.
  - Rendering decisions are functions of that state.

Source paths below are relative to the repository root.

## Model

| member | source | states |
|---|---|---|
| Rounding.RoundHalfUp | stockPortfolio/backend/src/main/java/com/assettracker/service/PortfolioService.java:128 | The result has `scale` decimals and is within half a unit of the last place of x; ties round away from zero; the sign of x is kept |
| Rounding.RoundHalfUpExact | stockPortfolio/backend/src/main/java/com/assettracker/service/StockService.java:124-125 | A value that already has `scale` decimals is unchanged by rounding |
| Rounding.RoundHalfUpNegate | stockPortfolio/backend/src/main/java/com/assettracker/service/StockService.java:124-125 | HALF_UP is symmetric: rounding -x gives minus the rounding of x |
| Rounding.RoundHalfUpMonotonic | stockPortfolio/backend/src/main/java/com/assettracker/service/PortfolioService.java:128 | Rounding preserves order |
| Rounding.HalfUpUnitsUnique | stockPortfolio/backend/src/main/java/com/assettracker/service/PortfolioService.java:128 | The rounded unit count is the only integer within half a unit under the HALF_UP tie rule |
| Rounding.PercentOf | stockPortfolio/backend/src/main/java/com/assettracker/model/StockHolding.java:56 | `a.divide(b, 4, HALF_UP) * 100`: a/b rounded HALF_UP to 4 places, times 100; so it has two decimals and is within 0.005 of a/b·100 |
| Rounding.PercentOfRatio | stockPortfolio/backend/src/main/java/com/assettracker/model/StockHolding.java:56 | Equal ratios give equal percentages |
| Rounding.PercentOfScaled | stockPortfolio/backend/src/main/java/com/assettracker/model/StockHolding.java:54-57 | Scaling part and whole by the same non-zero factor leaves the percentage unchanged |
| Rounding.PercentOfSign | stockPortfolio/backend/src/main/java/com/assettracker/model/StockHolding.java:56 | With a positive divisor the percentage has the numerator's sign (or is 0) |
| Entities.FindUserById | stockPortfolio/backend/src/main/java/com/assettracker/service/UserService.java:37 | Present exactly when the id is a key, and then that row |
| Entities.FindUserByUsername | stockPortfolio/backend/src/main/java/com/assettracker/service/UserService.java:42 | Returns a stored user with that username, or None when no stored user has it |
| Entities.FindPortfoliosByUser | stockPortfolio/backend/src/main/java/com/assettracker/service/PortfolioService.java:37 | Lists exactly the user's portfolios with ids below the counter, each once, in strictly ascending id order |
| Entities.FindPortfolioByIdAndUser | stockPortfolio/backend/src/main/java/com/assettracker/service/PortfolioService.java:73-74 | Present exactly when the portfolio exists and the user owns it |
| Entities.FindPositionsByPortfolio | stockPortfolio/backend/src/main/java/com/assettracker/service/PortfolioService.java:40 | Lists exactly the portfolio's holdings with ids below the counter, each once, in strictly ascending id order, each with its own stock row |
| Entities.FindLine | stockPortfolio/backend/src/main/java/com/assettracker/service/PortfolioService.java:119-120 | Finds a holding on the (user, stock, portfolio) line, or None when no holding is on it |
| Entities.Distinct | stockPortfolio/backend/src/main/java/com/assettracker/service/NewsService.java:52 | Same elements as the input, with no repeats |
| Entities.HeldSymbols | stockPortfolio/backend/src/main/java/com/assettracker/service/NewsService.java:52 | A symbol is listed exactly when one of the user's holdings is of that stock |
| Entities.FindDistinctSymbolsByUser | stockPortfolio/backend/src/main/java/com/assettracker/service/NewsService.java:52 | The user's held symbols, each once |
| Tables.Database.constructor | stockPortfolio/backend/src/main/java/com/assettracker/model/StockHolding.java:21-40 | An empty store satisfies the integrity invariant, which includes the non-null holding columns and their positive quantities |
| Holdings.CurrentValue | stockPortfolio/backend/src/main/java/com/assettracker/model/StockHolding.java:43-45 | Definition: the stock's current price times the quantity held |
| Holdings.CostBasis | stockPortfolio/backend/src/main/java/com/assettracker/model/StockHolding.java:49 | Definition: the average purchase price times the quantity |
| Holdings.ProfitLoss | stockPortfolio/backend/src/main/java/com/assettracker/model/StockHolding.java:48-51 | Definition: current value minus cost basis; its meaning is stated by ProfitLossIsPriceGap and ProfitLossSign |
| Holdings.ProfitLossPercentage | stockPortfolio/backend/src/main/java/com/assettracker/model/StockHolding.java:54-57 | Exactly the HALF_UP rounding of profit/loss over cost basis to 4 places, times 100: two decimals, within 0.005 of the exact percentage; the divisor must be non-zero because the source does not guard it |
| Holdings.ProfitLossIsPriceGap | stockPortfolio/backend/src/main/java/com/assettracker/model/StockHolding.java:43-51 | Profit/loss = (current price − average price) × quantity |
| Holdings.ProfitLossSign | stockPortfolio/backend/src/main/java/com/assettracker/model/StockHolding.java:43-51 | For positive quantity, profit/loss ≥ 0 (resp. > 0) iff current price ≥ (resp. >) average price |
| Holdings.ProfitLossPercentageOfPrices | stockPortfolio/backend/src/main/java/com/assettracker/model/StockHolding.java:54-57 | The percentage does not depend on quantity: it is the price gap relative to the average price |
| Holdings.ProfitLossPercentageSign | stockPortfolio/backend/src/main/java/com/assettracker/model/StockHolding.java:54-57 | With a positive cost basis the percentage has the sign of profit/loss |
| HoldingDtos.CheckRequest | stockPortfolio/backend/src/main/java/com/assettracker/dto/StockHoldingDto.java:20-25 | A request is accepted iff quantity and purchase price are both present and strictly positive, and then yields exactly that pair |
| HoldingDtos.FromHolding | stockPortfolio/backend/src/main/java/com/assettracker/dto/StockHoldingDto.java:32-43 | Copies id, symbol, name, quantity and average price, plus the derived values, with currency "USD"; fails with division by zero exactly when the cost basis is 0 |
| HoldingDtos.FromHoldingConsistent | stockPortfolio/backend/src/main/java/com/assettracker/dto/StockHoldingDto.java:36-41 | In a mapped holding: value = price × quantity, P/L = value − purchase price × quantity, and the percentage is the price gap relative to the purchase price |
| PortfolioDtos.TotalValue | stockPortfolio/backend/src/main/java/com/assettracker/dto/PortfolioDto.java:39-45 | Definition: the sum of the holdings' current values; the constructor's loop is proved equal to it in Build |
| PortfolioDtos.TotalCost | stockPortfolio/backend/src/main/java/com/assettracker/dto/PortfolioDto.java:39-45 | Definition: the sum of the holdings' cost bases; non-negativity is TotalCostNonNegative |
| PortfolioDtos.TotalPercentage | stockPortfolio/backend/src/main/java/com/assettracker/dto/PortfolioDto.java:48-50 | Exactly 0 when the cost is not positive; otherwise PercentOf(value − cost, cost), the HALF_UP percentage, within 0.005 of (value − cost)/cost ×100 |
| PortfolioDtos.TotalProfitLossIsSum | stockPortfolio/backend/src/main/java/com/assettracker/dto/PortfolioDto.java:42-47 | Total value − total cost is the sum of the holdings' own profit/loss |
| PortfolioDtos.TotalCostNonNegative | stockPortfolio/backend/src/main/java/com/assettracker/dto/PortfolioDto.java:42-45 | Positive quantities and non-negative prices give a non-negative total cost |
| PortfolioDtos.TotalPercentageSign | stockPortfolio/backend/src/main/java/com/assettracker/dto/PortfolioDto.java:48-50 | With a positive cost, a gain gives a non-negative percentage and a loss a non-positive one |
| PortfolioDtos.Build | stockPortfolio/backend/src/main/java/com/assettracker/dto/PortfolioDto.java:29-51 | Copies the portfolio's id, name and description and the given currency; maps the holdings one-to-one in order; the loop's totals equal the sums; P/L = value − cost; percentage by the rule above; fails exactly when a holding's cost basis is 0 |
| PortfolioService.PortfolioAccess | stockPortfolio/backend/src/main/java/com/assettracker/service/PortfolioService.java:93-95 | No error iff the user exists and owns the portfolio |
| PortfolioService.HoldingAccess | stockPortfolio/backend/src/main/java/com/assettracker/service/PortfolioService.java:164-173 | No error iff portfolio access passes and the holding exists and is on that user and portfolio; portfolio errors come first |
| PortfolioService.Summary | stockPortfolio/backend/src/main/java/com/assettracker/service/PortfolioService.java:53-67 | Id, name and description from the portfolio; stockCount = number of holdings; totalValue = sum of current values; P/L = total value − total cost; percentage PercentOf(P/L, cost) when cost > 0, else 0; currency is the user's preferred one |
| PortfolioService.SumHoldings | stockPortfolio/backend/src/main/java/com/assettracker/service/PortfolioService.java:42-51 | The loop's totals equal the sum of current values and the sum of average price × quantity |
| PortfolioService.Summarize | stockPortfolio/backend/src/main/java/com/assettracker/service/PortfolioService.java:40-66 | The loop body for one portfolio builds exactly its summary: the totals of its holdings, their P/L and percentage, the holding count and the currency |
| PortfolioService.SummarizeAll | stockPortfolio/backend/src/main/java/com/assettracker/service/PortfolioService.java:39-67 | One summary per given portfolio, in order, each the summary of that portfolio's holdings |
| PortfolioService.SummaryAgreesWithDetail | stockPortfolio/backend/src/main/java/com/assettracker/service/PortfolioService.java:39-67 | The summary and the detail view of the same holdings have the same count, total value, P/L and percentage |
| PortfolioService.GetUserPortfolios | stockPortfolio/backend/src/main/java/com/assettracker/service/PortfolioService.java:35-69 | One summary per portfolio of the user, in repository order, each the summary of that portfolio's holdings; fails only for an unknown user |
| PortfolioService.GetPortfolio | stockPortfolio/backend/src/main/java/com/assettracker/service/PortfolioService.java:71-79 | Fails with the access error when the user does not own the portfolio; otherwise the detail view: holding i is the DTO of position i, with the totals and the user's currency |
| PortfolioService.CreatePortfolio | stockPortfolio/backend/src/main/java/com/assettracker/service/PortfolioService.java:81-90 | A new row with the next id, owned by the user; only the portfolios table changes; an unknown user changes nothing |
| PortfolioService.UpdatePortfolio | stockPortfolio/backend/src/main/java/com/assettracker/service/PortfolioService.java:92-101 | Only name and description of that row change; a failed access check changes nothing |
| PortfolioService.DeletePortfolio | stockPortfolio/backend/src/main/java/com/assettracker/service/PortfolioService.java:103-109 | Exactly that row is removed; a failed access check changes nothing |
| PortfolioService.WeightedMean | stockPortfolio/backend/src/main/java/com/assettracker/service/PortfolioService.java:124-128 | Definition: total cost over total quantity; defined when the quantities do not sum to zero, which positive quantities guarantee. Its bounds are WeightedMeanBetween |
| PortfolioService.MergedAverage | stockPortfolio/backend/src/main/java/com/assettracker/service/PortfolioService.java:124-128 | Definition: the weighted mean rounded HALF_UP to 2 places; its bounds are MergedAverageBounds |
| PortfolioService.MergedAverageBounds | stockPortfolio/backend/src/main/java/com/assettracker/service/PortfolioService.java:124-128 | The merged average is within half a cent of the cost-weighted mean, lies between the two (rounded) prices, and is non-negative for non-negative prices |
| PortfolioService.WeightedMeanBetween | stockPortfolio/backend/src/main/java/com/assettracker/service/PortfolioService.java:124-128 | A mean weighted by positive quantities lies between the two prices, and does not depend on which purchase comes first |
| PortfolioService.SamePriceMean | stockPortfolio/backend/src/main/java/com/assettracker/service/PortfolioService.java:124-128 | Two purchases at one price have that price as their weighted mean |
| PortfolioService.MergedAverageSamePrice | stockPortfolio/backend/src/main/java/com/assettracker/service/PortfolioService.java:124-131 | Buying more at the same whole-cent price leaves the average unchanged |
| PortfolioService.AddedHolding | stockPortfolio/backend/src/main/java/com/assettracker/service/PortfolioService.java:119-145 | On a held line: the same row with quantity old + added and the merged average price; otherwise a new row with the given quantity, price, user, portfolio and stock |
| PortfolioService.AddAccess | stockPortfolio/backend/src/main/java/com/assettracker/service/PortfolioService.java:111-116 | No error iff portfolio access passes and the stock exists; portfolio errors come first |
| PortfolioService.AddStockToPortfolio | stockPortfolio/backend/src/main/java/com/assettracker/service/PortfolioService.java:111-146 | Writes exactly the added holding. A merge reuses the existing id and creates no second row. A new line takes the next id. At most one holding per line is kept. A failed check changes nothing |
| PortfolioService.RemoveStockFromPortfolio | stockPortfolio/backend/src/main/java/com/assettracker/service/PortfolioService.java:148-161 | Exactly that holding is removed; a foreign or missing holding, or a failed portfolio check, changes nothing and reports the matching error |
| PortfolioService.UpdateStockHolding | stockPortfolio/backend/src/main/java/com/assettracker/service/PortfolioService.java:163-179 | Only quantity and average price of that holding change; a failed check changes nothing |
| StockService.GetStockBySymbol | stockPortfolio/backend/src/main/java/com/assettracker/service/StockService.java:41-44 | The stock row for the symbol, or "Stock not found with symbol: …" |
| StockService.ExchangeRate | stockPortfolio/backend/src/main/java/com/assettracker/service/StockService.java:76-87 | The fixed rates from USD: EUR 0.91, GBP 0.79, JPY 111.22, CAD 1.34, AUD 1.47, and 1 for any other code; always positive |
| StockService.PercentChange | stockPortfolio/backend/src/main/java/com/assettracker/service/StockService.java:102-108 | Present iff the previous close is present and positive, and then the HALF_UP percentage of the change over it |
| StockService.PercentChangeSign | stockPortfolio/backend/src/main/java/com/assettracker/service/StockService.java:102-108 | A rise gives a non-negative change and a fall a non-positive one |
| StockService.ToDto | stockPortfolio/backend/src/main/java/com/assettracker/service/StockService.java:89-111 | Copies every stock column, currency "USD", and the percent change above |
| StockService.Scale | stockPortfolio/backend/src/main/java/com/assettracker/service/StockService.java:65-70 | An absent price stays absent; a present one is multiplied by the rate |
| StockService.ConvertCurrency | stockPortfolio/backend/src/main/java/com/assettracker/service/StockService.java:54-74 | For "USD": the plain view. Otherwise the four prices are scaled by the same rate, absent ones stay absent, the currency becomes the target, and every other field is kept |
| StockService.ConversionKeepsOrder | stockPortfolio/backend/src/main/java/com/assettracker/service/StockService.java:61-70 | Converting preserves the order of prices, since every rate is positive |
| StockService.NewDayHigh | stockPortfolio/backend/src/main/java/com/assettracker/service/StockService.java:129-130 | At least the new price and the old high; one of the two |
| StockService.NewDayLow | stockPortfolio/backend/src/main/java/com/assettracker/service/StockService.java:131-132 | At most the new price and the old low; one of the two |
| StockService.Updated | stockPortfolio/backend/src/main/java/com/assettracker/service/StockService.java:123-133 | Previous close = old price; new price = old × (1 + factor) to 2 places, HALF_UP; dayHigh = max(old high, price) and dayLow = min(old low, price), a missing bound becoming the price; so dayLow ≤ price ≤ dayHigh; lastUpdated = now |
| StockService.UpdateWidensDayRange | stockPortfolio/backend/src/main/java/com/assettracker/service/StockService.java:129-132 | The day range only widens |
| StockService.UpdateStockPrices | stockPortfolio/backend/src/main/java/com/assettracker/service/StockService.java:113-137 | Every stock, and no other, gets the update with its own factor; every other table is unchanged |
| NewsService.Insert | stockPortfolio/backend/src/main/java/com/assettracker/service/NewsService.java:65-66 | Insertion keeps the list newest-first and adds exactly one copy of the element (multiset) |
| NewsService.SortNewestFirst | stockPortfolio/backend/src/main/java/com/assettracker/service/NewsService.java:65-66 | A newest-first permutation of the input |
| NewsService.NewestFirstPairs | stockPortfolio/backend/src/main/java/com/assettracker/service/NewsService.java:65-66 | Adjacent order implies order between every pair |
| NewsService.InsertOldest | stockPortfolio/backend/src/main/java/com/assettracker/service/NewsService.java:65-66 | Inserting an article no newer than all others appends it |
| NewsService.SortSortedIsIdentity | stockPortfolio/backend/src/main/java/com/assettracker/service/NewsService.java:65-66 | Sorting an already newest-first list leaves it unchanged |
| NewsService.InsertStable | stockPortfolio/backend/src/main/java/com/assettracker/service/NewsService.java:65-66 | Insertion keeps the articles of each publication time in order, the new one after those already there |
| NewsService.SortStable | stockPortfolio/backend/src/main/java/com/assettracker/service/NewsService.java:65-66 | The sort is stable: for every time, the articles published then come out in the order they went in |
| NewsService.Take | stockPortfolio/backend/src/main/java/com/assettracker/service/NewsService.java:67 | A prefix of at most count elements; all of a list not longer than count |
| NewsService.TakeNewestFirst | stockPortfolio/backend/src/main/java/com/assettracker/service/NewsService.java:65-67 | The prefix of a newest-first list is newest-first |
| NewsService.LatestSelection | stockPortfolio/backend/src/main/java/com/assettracker/service/NewsService.java:65-67 | Sorting newest first and taking count gives min(count, n) articles of the input, newest first, and every article left out is no newer than the last one taken |
| NewsService.AllNews | stockPortfolio/backend/src/main/java/com/assettracker/service/NewsService.java:42 | Every stored article and nothing else |
| NewsService.MentioningAppend | stockPortfolio/backend/src/main/java/com/assettracker/repository/StockNewsRepository.java:17 | The LIKE filter distributes over concatenation, so it keeps the matching articles in their input order |
| NewsService.MentioningCounts | stockPortfolio/backend/src/main/java/com/assettracker/repository/StockNewsRepository.java:17 | Each matching article is kept as many times as it occurs; each other article is dropped |
| NewsService.FindByStockSymbol | stockPortfolio/backend/src/main/java/com/assettracker/repository/StockNewsRepository.java:17-18 | Definition: the matching articles, newest first, cut to the page; NewsForStock states its LatestOf property |
| NewsService.Mentioning | stockPortfolio/backend/src/main/java/com/assettracker/service/NewsService.java:47 | Exactly the articles whose related symbols contain the symbol (order and multiplicity: MentioningAppend, MentioningCounts) |
| NewsService.LatestNews | stockPortfolio/backend/src/main/java/com/assettracker/service/NewsService.java:40-43 | A page size below 1 is rejected; otherwise min(count, stored) stored articles, newest first, and no stored article left out is newer than the last one returned |
| NewsService.NewsForStock | stockPortfolio/backend/src/main/java/com/assettracker/service/NewsService.java:45-48 | A page size below 1 is rejected; otherwise min(count, matching) stored articles mentioning the symbol, newest first, and no matching article left out is newer than the last one returned |
| NewsService.ConcatSnoc | stockPortfolio/backend/src/main/java/com/assettracker/service/NewsService.java:60-62 | One more symbol appends that symbol's list to what was collected |
| NewsService.ConcatFrom | stockPortfolio/backend/src/main/java/com/assettracker/service/NewsService.java:60-62 | Every collected article comes from the list of one of the symbols |
| NewsService.PageMentionsSymbol | stockPortfolio/backend/src/main/java/com/assettracker/service/NewsService.java:61 | A symbol's page holds only stored articles that mention the symbol |
| NewsService.CollectNews | stockPortfolio/backend/src/main/java/com/assettracker/service/NewsService.java:58-62 | The loop's result is every symbol's list, in symbol order, concatenated |
| NewsService.MergedMentionsSymbols | stockPortfolio/backend/src/main/java/com/assettracker/service/NewsService.java:58-62 | Every collected article is stored and mentions one of the held symbols |
| NewsService.GetNewsForUserPortfolio | stockPortfolio/backend/src/main/java/com/assettracker/service/NewsService.java:50-69 | No held symbols: exactly the latest news. Otherwise: the per-symbol lists concatenated by the loop, sorted newest first and cut to count. Always at most count articles, newest first |
| NewsService.MergedTwo | stockPortfolio/backend/src/main/java/com/assettracker/service/NewsService.java:60-62 | The loop appends the first symbol's list, then the second's |
| NewsService.ArticleListedOncePerSymbol | stockPortfolio/backend/src/main/java/com/assettracker/service/NewsService.java:58-68 | An article found for two held symbols is collected twice, and when nothing is cut off it appears twice in the feed: no de-duplication |
| UserService.GetUserById | stockPortfolio/backend/src/main/java/com/assettracker/service/UserService.java:36-39 | The user row, or "User not found with id: …" |
| UserService.GetUserByUsername | stockPortfolio/backend/src/main/java/com/assettracker/service/UserService.java:41-44 | A stored user with that username iff one exists, or "User not found with username: …" |
| UserService.CheckNewUser | stockPortfolio/backend/src/main/java/com/assettracker/service/UserService.java:47-53 | A taken username is reported before the email is checked; the request passes iff both are free |
| UserService.NewUser | stockPortfolio/backend/src/main/java/com/assettracker/service/UserService.java:55-59 | Username and email copied; the password is the encoder's output; currency defaults to USD |
| UserService.AcceptedUserKeepsUnique | stockPortfolio/backend/src/main/java/com/assettracker/service/UserService.java:47-61 | Inserting an accepted user keeps usernames and emails unique |
| UserService.CreateUser | stockPortfolio/backend/src/main/java/com/assettracker/service/UserService.java:46-62 | A rejected request changes nothing; an accepted one inserts the new user under the next id and advances the counter |
| UserService.UpdatePreferredCurrency | stockPortfolio/backend/src/main/java/com/assettracker/service/UserService.java:64-68 | Only preferredCurrency of that user changes; an unknown user fails and changes nothing |
| Text.Trim | stockPortfolio/frontend/app/components/portfolio/AddStockModal.tsx:29 | Definition: the slice between the first and last non-whitespace characters; its meaning is TrimShape and TrimEmpty |
| Text.TrimShape | stockPortfolio/frontend/app/components/dashboard/StockNews.tsx:65 | `trim()` removes exactly leading and trailing whitespace and leaves non-blank ends |
| Text.TrimEmpty | stockPortfolio/frontend/app/components/portfolio/EditPortfolioModal.tsx:37 | A string trims to empty iff it is all whitespace |
| Text.Split | stockPortfolio/frontend/app/components/dashboard/StockNews.tsx:63 | `split(',')` always yields at least one piece |
| Text.SplitPiecesFree | stockPortfolio/frontend/app/components/dashboard/StockNews.tsx:63 | No piece of `split(',')` contains the separator |
| Text.SplitCount | stockPortfolio/frontend/app/components/dashboard/StockNews.tsx:63 | Number of pieces = number of separators + 1 |
| Text.JoinSplit | stockPortfolio/frontend/app/components/dashboard/StockNews.tsx:63 | Joining the pieces with the separator gives the input back |
| Text.SplitJoin | stockPortfolio/frontend/app/components/dashboard/StockNews.tsx:63 | Splitting a join of separator-free pieces gives the pieces back |
| Text.ToLower | stockPortfolio/frontend/app/components/stock/StockInfo.tsx:34 | `toLowerCase()` keeps the length and lowers each letter |
| Ui.NotPositive | stockPortfolio/frontend/app/components/portfolio/AddStockModal.tsx:61 | Definition: `parseFloat(x) <= 0`; an unparsable field (NaN) is not rejected |
| Ui.ErrorText | stockPortfolio/frontend/app/components/portfolio/AddStockModal.tsx:79 | `message \|\| fallback`: the server's message when it is non-empty, else the fallback |
| AuthContext.HasToken | stockPortfolio/frontend/app/contexts/AuthContext.tsx:35 | Definition: `if (token)`: a stored token counts only when it is present and non-empty |
| AuthContext.SignedInUser | stockPortfolio/frontend/app/contexts/AuthContext.tsx:57-62 | The session user takes id, username, email and preferred currency from the response |
| AuthContext.UseAuth | stockPortfolio/frontend/app/contexts/AuthContext.tsx:119-125 | Succeeds iff inside a provider; otherwise "useAuth must be used within an AuthProvider" |
| AuthContext.AuthProvider.constructor | stockPortfolio/frontend/app/contexts/AuthContext.tsx:26-27 | No user, loading, and the stored token as found |
| AuthContext.AuthProvider.CheckAuth | stockPortfolio/frontend/app/contexts/AuthContext.tsx:31-48 | With a token: success sets the user, and failure removes the token and keeps the user. Without a token nothing changes. Loading ends in every case |
| AuthContext.AuthProvider.BeginSignIn | stockPortfolio/frontend/app/contexts/AuthContext.tsx:52 | Login or register sets loading and nothing else |
| AuthContext.AuthProvider.FinishSignIn | stockPortfolio/frontend/app/contexts/AuthContext.tsx:53-69 | Success stores the token, sets the user from the response, and routes to /dashboard. Failure rethrows and changes nothing else. Loading ends. Also models register (lines 75-91) |
| AuthContext.AuthProvider.Logout | stockPortfolio/frontend/app/contexts/AuthContext.tsx:94-98 | Token and user cleared, route "/" |
| AuthContext.AuthProvider.UpdateCurrency | stockPortfolio/frontend/app/contexts/AuthContext.tsx:100-110 | Success changes only preferredCurrency, and an absent user stays absent; failure rethrows and keeps the user |
| DashboardLayout.Decide | stockPortfolio/frontend/app/dashboard/layout.tsx:17-44 | Redirect iff not loading and no user; spinner iff loading; blank iff not loading and no user; shell iff not loading with a user |
| DashboardLayout.RedirectExactlyWhenBlank | stockPortfolio/frontend/app/dashboard/layout.tsx:17-33 | The layout redirects exactly when it renders nothing, and never while showing the shell |
| DashboardLayout.OpenInFreshTab | stockPortfolio/frontend/app/dashboard/layout.tsx:17-44 | After the session check the spinner is gone; the shell shows iff a token was stored and the user fetch succeeded; otherwise the layout redirects |
| DashboardPage.TotalsAppend | stockPortfolio/frontend/app/dashboard/page.tsx:96-97 | The reduce sums split over concatenation |
| DashboardPage.TotalsMoveToFront | stockPortfolio/frontend/app/dashboard/page.tsx:96-97 | The sums do not depend on the order of the portfolios |
| DashboardPage.TotalValue | stockPortfolio/frontend/app/dashboard/page.tsx:96 | Definition: the reduce sum of the portfolios' total values; TotalsAppend and TotalsMoveToFront state its properties |
| DashboardPage.TotalProfitLoss | stockPortfolio/frontend/app/dashboard/page.tsx:97 | Definition: the reduce sum of the portfolios' profit/loss |
| DashboardPage.ReturnPercentage | stockPortfolio/frontend/app/dashboard/page.tsx:98-100 | 0 with no portfolios; otherwise percentage × total value = total P/L × 100 (over value, not cost) |
| DashboardPage.ReturnPercentageSign | stockPortfolio/frontend/app/dashboard/page.tsx:98-100 | With a positive total value the percentage has the sign of the total P/L |
| DashboardPage.ScreenFor | stockPortfolio/frontend/app/dashboard/page.tsx:69-94 | Spinner while either loads, then the error, then the login prompt, then the dashboard |
| DashboardPage.DashboardPageState.constructor | stockPortfolio/frontend/app/dashboard/page.tsx:36-39 | Empty lists, loading, no error |
| DashboardPage.DashboardPageState.FetchData | stockPortfolio/frontend/app/dashboard/page.tsx:41-67 | Nothing happens while auth loads or without a user. Otherwise portfolios load before news; the first failure sets the single error and stops; loading ends |
| DashboardPage.FirstVisit | stockPortfolio/frontend/app/dashboard/page.tsx:41-94 | After the first fetch the dashboard shows iff both calls succeed, and otherwise the load error |
| Chart.ColorsDistinct | stockPortfolio/frontend/app/components/charts/Chart.tsx:25 | Seven distinct colours |
| Chart.AllocationData | stockPortfolio/frontend/app/components/charts/Chart.tsx:36-40 | One slice per portfolio, in order, with its name and total value |
| Chart.NeighbourColorsDiffer | stockPortfolio/frontend/app/components/charts/Chart.tsx:39 | Consecutive indices get different colours |
| Chart.AllocationColorsCycle | stockPortfolio/frontend/app/components/charts/Chart.tsx:39 | Slice i has COLORS[i mod 7]; colours repeat with period 7, and neighbours differ |
| Chart.PerformanceData | stockPortfolio/frontend/app/components/charts/Chart.tsx:42-46 | One slice per portfolio with its P/L; green iff P/L ≥ 0, orange iff < 0 |
| Chart.AllocationTotal | stockPortfolio/frontend/app/components/charts/Chart.tsx:56 | The slices' values add up to the portfolios' total value |
| Chart.Share | stockPortfolio/frontend/app/components/charts/Chart.tsx:56 | Definition: a slice value over the sum of all portfolios' values, times 100; defined only for a non-zero sum |
| Chart.ShareTotalScales | stockPortfolio/frontend/app/components/charts/Chart.tsx:56 | The tooltip shares of a list of slices sum to their total over the portfolios' total ×100 |
| Chart.AllocationSharesSumTo100 | stockPortfolio/frontend/app/components/charts/Chart.tsx:56 | The allocation tooltip shares add up to 100% |
| Chart.PerformanceReturn | stockPortfolio/frontend/app/components/charts/Chart.tsx:67-77 | Definition: the return line shows the percentage of the first portfolio with the slice's name, if any; PerformanceReturnOfSlice states it is always found |
| Chart.FirstNamed | stockPortfolio/frontend/app/components/charts/Chart.tsx:67 | `find`: the first portfolio with that name, or None when none has it |
| Chart.PerformanceReturnOfSlice | stockPortfolio/frontend/app/components/charts/Chart.tsx:64-83 | Every performance slice finds a portfolio; with a unique name, it is the slice's own portfolio's percentage |
| Chart.Render | stockPortfolio/frontend/app/components/charts/Chart.tsx:85-155 | Empty state iff no portfolios; otherwise the pie of the selected data with its title |
| Chart.ChartPanel.constructor | stockPortfolio/frontend/app/components/charts/Chart.tsx:23 | Starts on allocation |
| Chart.ChartPanel.ShowAllocation | stockPortfolio/frontend/app/components/charts/Chart.tsx:109 | Sets allocation |
| Chart.ChartPanel.ShowPerformance | stockPortfolio/frontend/app/components/charts/Chart.tsx:120 | Sets performance |
| Navbar.Hidden | stockPortfolio/frontend/app/components/layout/Navbar.tsx:31-33 | Definition: the bar renders nothing on "/" and under /auth; ShownOnDashboardPages states it is shown under /dashboard |
| Navbar.IsActive | stockPortfolio/frontend/app/components/layout/Navbar.tsx:14-16 | Active class iff the pathname starts with the path, and the inactive class otherwise |
| Navbar.StartsWithTrans | stockPortfolio/frontend/app/components/layout/Navbar.tsx:15 | A prefix of a prefix is a prefix |
| Navbar.DashboardActiveWithSection | stockPortfolio/frontend/app/components/layout/Navbar.tsx:47-70 | On a section page both the section's link and the Dashboard link are active |
| Navbar.ShownOnDashboardPages | stockPortfolio/frontend/app/components/layout/Navbar.tsx:31-33 | The bar is never hidden under /dashboard |
| Navbar.Avatar | stockPortfolio/frontend/app/components/layout/Navbar.tsx:84 | The upper-cased first letter of the username; empty for an empty name |
| Navbar.Links | stockPortfolio/frontend/app/components/layout/Navbar.tsx:47-70 | The four section links in order, each styled by the prefix rule |
| Navbar.Render | stockPortfolio/frontend/app/components/layout/Navbar.tsx:31-198 | Nothing iff the path is "/" or under /auth. The avatar letter iff signed in; the "Signed in as" name iff signed in and the dropdown is open. Mobile links only while the mobile menu is open; the profile block with the email only when that menu is open and a user is signed in |
| Navbar.NavbarState.constructor | stockPortfolio/frontend/app/components/layout/Navbar.tsx:11-12 | Both menus closed |
| Navbar.NavbarState.ToggleMenu | stockPortfolio/frontend/app/components/layout/Navbar.tsx:18-20 | Negates the mobile menu flag only |
| Navbar.NavbarState.ToggleProfileMenu | stockPortfolio/frontend/app/components/layout/Navbar.tsx:22-24 | Negates the profile menu flag only |
| Navbar.NavbarState.CloseMenu | stockPortfolio/frontend/app/components/layout/Navbar.tsx:132 | A mobile link closes the mobile menu |
| Navbar.NavbarState.CloseProfileMenu | stockPortfolio/frontend/app/components/layout/Navbar.tsx:95 | The dropdown's link closes the dropdown |
| Navbar.NavbarState.HandleLogout | stockPortfolio/frontend/app/components/layout/Navbar.tsx:26-28 | The session logs out: no user, no token, route "/" |
| Navbar.ToggleTwice | stockPortfolio/frontend/app/components/layout/Navbar.tsx:18-24 | Toggling each menu twice restores both flags |
| StockNewsList.Chips | stockPortfolio/frontend/app/components/dashboard/StockNews.tsx:63-69 | One chip per comma-separated piece, in order |
| StockNewsList.ChipsShape | stockPortfolio/frontend/app/components/dashboard/StockNews.tsx:63-69 | Chip count = commas + 1 (empty pieces included). Each chip links to /dashboard/stock/ + the trimmed symbol and reads $ + the trimmed symbol. A chip's symbol has no comma and no blank ends |
| StockNewsList.CleanPiece | stockPortfolio/frontend/app/components/dashboard/StockNews.tsx:65 | A trimmed comma-free piece stays comma-free and has non-blank ends |
| StockNewsList.ChipsOfJoined | stockPortfolio/frontend/app/components/dashboard/StockNews.tsx:63-69 | A comma-joined list of clean symbols gives back one chip per symbol, in order |
| StockNewsList.LayoutOf | stockPortfolio/frontend/app/components/dashboard/StockNews.tsx:45-54 | Image column iff the image URL is truthy; then the text is 3/4 wide, else full width |
| StockNewsList.Render | stockPortfolio/frontend/app/components/dashboard/StockNews.tsx:36-90 | The empty-state message iff there is no news; the TypeError of `split` on null iff some article has no related symbols; otherwise one article per item, in order, with its chips |
| StockInfo.EverySectorHasIndustries | stockPortfolio/frontend/app/components/stock/StockInfo.tsx:98-134 | 11 sectors, each with a list of five industries |
| StockInfo.SectorFor | stockPortfolio/frontend/app/components/stock/StockInfo.tsx:98-116 | None iff the symbol is empty; else the sector at the first char code mod 11 |
| StockInfo.IndustryFor | stockPortfolio/frontend/app/components/stock/StockInfo.tsx:118-139 | None iff the symbol is empty |
| StockInfo.IndustryInSector | stockPortfolio/frontend/app/components/stock/StockInfo.tsx:119-138 | The fallback is never needed: the industry is the sector's own list at the last char code mod 5 |
| StockInfo.SameEndsSameProfile | stockPortfolio/frontend/app/components/stock/StockInfo.tsx:113-137 | Sector and industry depend only on the first and last characters |
| StockInfo.Website | stockPortfolio/frontend/app/components/stock/StockInfo.tsx:34 | Definition: https://www. + the lower-cased symbol + .com |
| StockInfo.WebsiteText | stockPortfolio/frontend/app/components/stock/StockInfo.tsx:87 | Definition: the website with the first https:// removed; WebsiteTextDropsScheme states the result |
| StockInfo.ReplaceFirst | stockPortfolio/frontend/app/components/stock/StockInfo.tsx:87 | A string that starts with the pattern has that occurrence replaced |
| StockInfo.WebsiteTextDropsScheme | stockPortfolio/frontend/app/components/stock/StockInfo.tsx:34-87 | The website is https://www. + lower-cased symbol + .com, and its text is the same without https:// |
| StockChart.Days | stockPortfolio/frontend/app/components/stock/StockChart.tsx:50-69 | The day count of each range: 1D 1, 1W 7, 1M 30, 3M 90, 1Y 365, 5Y 1825 |
| StockChart.RangesGrow | stockPortfolio/frontend/app/components/stock/StockChart.tsx:50-69 | Each range button goes further back than the previous one |
| StockChart.Factor | stockPortfolio/frontend/app/components/stock/StockChart.tsx:80-87 | Definition: 1 + randomFactor + trendFactor × trend, with the range's volatility and trend; its bounds are FactorBounds |
| StockChart.PointPrice | stockPortfolio/frontend/app/components/stock/StockChart.tsx:87-91 | Definition: the base price times the factor, kept to two decimals; its bounds are PointPriceBounds |
| StockChart.MockSeries | stockPortfolio/frontend/app/components/stock/StockChart.tsx:75-93 | Definition: one point per day from Days back to today; GenerateMockData is proved equal to it and MockSeriesShape states its shape |
| StockChart.BasePrice | stockPortfolio/frontend/app/components/stock/StockChart.tsx:72 | Char-code sum mod 200 + 50 lies in [50, 249] |
| StockChart.GenerateMockData | stockPortfolio/frontend/app/components/stock/StockChart.tsx:45-96 | The loop builds exactly the series `MockSeries` |
| StockChart.MockSeriesShape | stockPortfolio/frontend/app/components/stock/StockChart.tsx:75-93 | Days + 1 points, one per day, from Days back to today, in order |
| StockChart.FactorBounds | stockPortfolio/frontend/app/components/stock/StockChart.tsx:80-88 | The noise-and-trend factor lies in [0.98, 1.22) |
| StockChart.ScaledBounds | stockPortfolio/frontend/app/components/stock/StockChart.tsx:80-88 | A base price in [50, 249] times that factor lies in [49, 303.78) |
| StockChart.CentsClose | stockPortfolio/frontend/app/components/stock/StockChart.tsx:90-91 | Keeping two decimals moves a price by at most half a cent |
| StockChart.RoundedBounds | stockPortfolio/frontend/app/components/stock/StockChart.tsx:80-91 | A rounded scaled price lies in [48.995, 303.785] |
| StockChart.PointPriceBounds | stockPortfolio/frontend/app/components/stock/StockChart.tsx:80-91 | Every generated price lies in [48.995, 303.785], so it is positive |
| StockChart.CalculatePriceChange | stockPortfolio/frontend/app/components/stock/StockChart.tsx:123-132 | {0, 0} below two points; else change = last − first and percentage × first = change × 100 |
| StockChart.IsPositive | stockPortfolio/frontend/app/components/stock/StockChart.tsx:135 | Definition: a change of zero or more counts as positive |
| StockChart.LineColor | stockPortfolio/frontend/app/components/stock/StockChart.tsx:198 | Definition: green for a positive change, red otherwise |
| StockChart.SignPrefix | stockPortfolio/frontend/app/components/stock/StockChart.tsx:156 | Definition: "+" for a positive change, nothing otherwise |
| StockChart.ChangeSign | stockPortfolio/frontend/app/components/stock/StockChart.tsx:135 | With a positive first price, isPositive iff the percentage is ≥ 0 |
| StockChart.GeneratedChange | stockPortfolio/frontend/app/components/stock/StockChart.tsx:123-156 | For a generated series the first price is positive, and the sign prefix and colour agree with both numbers |
| StockChart.StockChartView.constructor | stockPortfolio/frontend/app/components/stock/StockChart.tsx:19-22 | Starts on one month, no data, loading, no error |
| StockChart.StockChartView.SelectRange | stockPortfolio/frontend/app/components/stock/StockChart.tsx:141-153 | Sets the range only |
| StockChart.StockChartView.Refresh | stockPortfolio/frontend/app/components/stock/StockChart.tsx:24-43 | The data becomes the series for the current range; loading ends without error |
| AddStockModal.SubmitDisabled | stockPortfolio/frontend/app/components/portfolio/AddStockModal.tsx:221 | Definition: disabled while submitting or while a field is empty; EnabledSubmitPassesFillCheck relates it to Validate |
| AddStockModal.SearchDisabled | stockPortfolio/frontend/app/components/portfolio/AddStockModal.tsx:137 | Definition: disabled while searching or while the trimmed symbol is empty; BlankSymbolCannotSearch relates it to the search |
| AddStockModal.Validate | stockPortfolio/frontend/app/components/portfolio/AddStockModal.tsx:56-64 | "Please fill in all fields" iff some field is empty. Otherwise the positivity message iff a number is ≤ 0. None iff both checks pass |
| AddStockModal.EnabledSubmitPassesFillCheck | stockPortfolio/frontend/app/components/portfolio/AddStockModal.tsx:221 | The enabled button never leads to the fill message; an unparsable (NaN) quantity passes validation |
| AddStockModal.BlankSymbolCannotSearch | stockPortfolio/frontend/app/components/portfolio/AddStockModal.tsx:137 | A whitespace-only symbol disables the search button |
| AddStockModal.AddStockDialog.constructor | stockPortfolio/frontend/app/components/portfolio/AddStockModal.tsx:19-26 | All fields empty, nothing selected, no error |
| AddStockModal.AddStockDialog.EditSymbol | stockPortfolio/frontend/app/components/portfolio/AddStockModal.tsx:130 | Sets the symbol only |
| AddStockModal.AddStockDialog.EditQuantity | stockPortfolio/frontend/app/components/portfolio/AddStockModal.tsx:178 | Sets the quantity only |
| AddStockModal.AddStockDialog.EditPurchasePrice | stockPortfolio/frontend/app/components/portfolio/AddStockModal.tsx:193 | Sets the purchase price only |
| AddStockModal.AddStockDialog.SearchStock | stockPortfolio/frontend/app/components/portfolio/AddStockModal.tsx:28-45 | A blank symbol does nothing and sends no query. Otherwise the query is the symbol as typed, untrimmed; results replace the list, with "No stocks found…" for none; a failure keeps the list and sets the search error; searching ends |
| AddStockModal.AddStockDialog.SelectStock | stockPortfolio/frontend/app/components/portfolio/AddStockModal.tsx:47-51 | Selection set, symbol overwritten with the stock's, results cleared |
| AddStockModal.AddStockDialog.BeginSubmit | stockPortfolio/frontend/app/components/portfolio/AddStockModal.tsx:53-75 | No request iff validation fails, and then its message is shown. Otherwise the error is cleared, submitting starts, and the request carries the parsed fields |
| AddStockModal.AddStockDialog.FinishSubmit | stockPortfolio/frontend/app/components/portfolio/AddStockModal.tsx:76-82 | onSuccess iff the call succeeded; a failure shows the server message or "Failed to add stock to portfolio"; submitting ends |
| AddStockModal.SubmitFilledForm | stockPortfolio/frontend/app/components/portfolio/AddStockModal.tsx:53-83 | On an enabled button: the request goes out iff both numbers pass the positivity check, and onSuccess runs iff it then succeeds |
| AddToPortfolioModal.SubmitDisabled | stockPortfolio/frontend/app/components/stock/AddToPortfolioModal.tsx:236 | Definition: disabled while submitting, with no selection, with an empty field, or with no portfolios |
| AddToPortfolioModal.Validate | stockPortfolio/frontend/app/components/stock/AddToPortfolioModal.tsx:41-49 | "Please select a portfolio" iff nothing selected (checked first); then the positivity message; no empty-field check |
| AddToPortfolioModal.EmptyInputPassesValidation | stockPortfolio/frontend/app/components/stock/AddToPortfolioModal.tsx:46-49 | An empty quantity (NaN) passes validation; only the disabled button stops it |
| AddToPortfolioModal.AgreesWithAddStockDialog | stockPortfolio/frontend/app/components/stock/AddToPortfolioModal.tsx:41-49 | On a filled form with a selection, the two add dialogs give the same verdict and message |
| AddToPortfolioModal.FreshFormValid | stockPortfolio/frontend/app/components/stock/AddToPortfolioModal.tsx:32-33 | The initial quantity 1 and the current price pass validation when the price is positive |
| AddToPortfolioModal.AddToPortfolioDialog.constructor | stockPortfolio/frontend/app/components/stock/AddToPortfolioModal.tsx:31-36 | No selection, quantity "1", price = the stock's current price, no error, no success |
| AddToPortfolioModal.AddToPortfolioDialog.View | stockPortfolio/frontend/app/components/stock/AddToPortfolioModal.tsx:100-236 | The confirmation iff success; otherwise the form with the error, the select only when there are portfolios, and the disabled rule |
| AddToPortfolioModal.AddToPortfolioDialog.SelectPortfolio | stockPortfolio/frontend/app/components/stock/AddToPortfolioModal.tsx:155-167 | The selection becomes the chosen option, which is a listed portfolio or the placeholder |
| AddToPortfolioModal.AddToPortfolioDialog.EditQuantity | stockPortfolio/frontend/app/components/stock/AddToPortfolioModal.tsx:192-193 | Sets the quantity only |
| AddToPortfolioModal.AddToPortfolioDialog.EditPurchasePrice | stockPortfolio/frontend/app/components/stock/AddToPortfolioModal.tsx:207-208 | Sets the purchase price only |
| AddToPortfolioModal.AddToPortfolioDialog.BeginSubmit | stockPortfolio/frontend/app/components/stock/AddToPortfolioModal.tsx:38-60 | No request iff validation fails, and then its message is shown. Otherwise the error is cleared, submitting starts, and the request carries the selected portfolio, the stock's symbol and the parsed numbers |
| AddToPortfolioModal.AddToPortfolioDialog.FinishSubmit | stockPortfolio/frontend/app/components/stock/AddToPortfolioModal.tsx:61-67 | Success sets the success flag; failure shows the server message or the fallback; submitting ends |
| AddToPortfolioModal.AddToPortfolioDialog.CreatePortfolio | stockPortfolio/frontend/app/components/stock/AddToPortfolioModal.tsx:70-73 | Routes to /dashboard/portfolio/new and closes |
| AddToPortfolioModal.AddToPortfolioDialog.ViewPortfolio | stockPortfolio/frontend/app/components/stock/AddToPortfolioModal.tsx:119 | Routes to the selected portfolio's page |
| AddToPortfolioModal.QuickAdd | stockPortfolio/frontend/app/components/stock/AddToPortfolioModal.tsx:31-67 | Choosing a portfolio and submitting the untouched form sends one share at the current price, and confirms iff the call succeeds |
| StockHoldingItem.HoldingRow.constructor | stockPortfolio/frontend/app/components/portfolio/StockHoldingItem.tsx:7-18 | A holding as received, with numeric quantity and price |
| StockHoldingItem.FromValue | stockPortfolio/frontend/app/components/portfolio/StockHoldingItem.tsx:34-35 | `n.toString()` is non-empty and parses back to n |
| StockHoldingItem.Validate | stockPortfolio/frontend/app/components/portfolio/StockHoldingItem.tsx:51-54 | Passes iff neither number is ≤ 0; otherwise the positivity message |
| StockHoldingItem.PreviewValue | stockPortfolio/frontend/app/components/portfolio/StockHoldingItem.tsx:122 | Defined iff the typed quantity parses |
| StockHoldingItem.PreviewProfitLoss | stockPortfolio/frontend/app/components/portfolio/StockHoldingItem.tsx:126 | Defined iff both typed numbers parse |
| StockHoldingItem.PreviewIsValueMinusCost | stockPortfolio/frontend/app/components/portfolio/StockHoldingItem.tsx:122-126 | Previewed P/L = previewed value − typed cost; for a positive quantity it is a gain iff current price ≥ typed price |
| StockHoldingItem.StockHoldingItemState.constructor | stockPortfolio/frontend/app/components/portfolio/StockHoldingItem.tsx:33-37 | Not editing; inputs from the holding's numbers |
| StockHoldingItem.StockHoldingItemState.View | stockPortfolio/frontend/app/components/portfolio/StockHoldingItem.tsx:87-195 | The edit row with both previews, the error and the save button disabled while submitting; otherwise the holding's own figures |
| StockHoldingItem.StockHoldingItemState.StartEdit | stockPortfolio/frontend/app/components/portfolio/StockHoldingItem.tsx:182 | Enters edit mode only |
| StockHoldingItem.StockHoldingItemState.EditQuantity | stockPortfolio/frontend/app/components/portfolio/StockHoldingItem.tsx:104 | Sets the quantity input only |
| StockHoldingItem.StockHoldingItemState.EditPurchasePrice | stockPortfolio/frontend/app/components/portfolio/StockHoldingItem.tsx:114 | Sets the price input only |
| StockHoldingItem.StockHoldingItemState.BeginEditSubmit | stockPortfolio/frontend/app/components/portfolio/StockHoldingItem.tsx:48-65 | No request iff validation fails, and then its message is shown and the row stays in edit mode. Otherwise the request carries the portfolio, the holding id and the parsed numbers |
| StockHoldingItem.StockHoldingItemState.FinishEditSubmit | stockPortfolio/frontend/app/components/portfolio/StockHoldingItem.tsx:66-77 | Success writes the parsed numbers into the shared holding in place and leaves edit mode; its value and P/L figures are not recomputed. Failure keeps the holding and edit mode and shows the message. Submitting ends |
| StockHoldingItem.StockHoldingItemState.Cancel | stockPortfolio/frontend/app/components/portfolio/StockHoldingItem.tsx:80-85 | Inputs reset from the holding, error cleared, edit mode left |
| StockHoldingItem.StockHoldingItemState.RemoveTarget | stockPortfolio/frontend/app/components/portfolio/StockHoldingItem.tsx:188 | Remove passes the holding's id |
| StockHoldingItem.EditAndSave | stockPortfolio/frontend/app/components/portfolio/StockHoldingItem.tsx:48-85 | The holding takes the typed numbers iff they pass and the update succeeds; otherwise it keeps its numbers and the row stays in edit mode; a later cancel shows the holding's numbers |
| EditPortfolioModal.InitialDescription | stockPortfolio/frontend/app/components/portfolio/EditPortfolioModal.tsx:30 | The description, or "" when absent or empty |
| EditPortfolioModal.SubmitDisabled | stockPortfolio/frontend/app/components/portfolio/EditPortfolioModal.tsx:120 | Definition: disabled while submitting or while the trimmed name is empty; RejectedExactlyWhenBlank relates it to Validate |
| EditPortfolioModal.Validate | stockPortfolio/frontend/app/components/portfolio/EditPortfolioModal.tsx:37-40 | Passes iff the trimmed name is non-empty; otherwise "Portfolio name is required" |
| EditPortfolioModal.RejectedExactlyWhenBlank | stockPortfolio/frontend/app/components/portfolio/EditPortfolioModal.tsx:37-40 | Rejected iff the name is all whitespace; the enabled button (line 120) always passes |
| EditPortfolioModal.EditPortfolioDialog.constructor | stockPortfolio/frontend/app/components/portfolio/EditPortfolioModal.tsx:29-32 | Name from the portfolio, description by the rule above, not submitting, no error |
| EditPortfolioModal.EditPortfolioDialog.EditName | stockPortfolio/frontend/app/components/portfolio/EditPortfolioModal.tsx:89-90 | Sets the name only |
| EditPortfolioModal.EditPortfolioDialog.EditDescription | stockPortfolio/frontend/app/components/portfolio/EditPortfolioModal.tsx:103-104 | Sets the description only |
| EditPortfolioModal.EditPortfolioDialog.BeginSubmit | stockPortfolio/frontend/app/components/portfolio/EditPortfolioModal.tsx:34-46 | No request iff the name is blank, and then the message is shown; otherwise the untrimmed name and the description are sent for the portfolio's id |
| EditPortfolioModal.EditPortfolioDialog.FinishSubmit | stockPortfolio/frontend/app/components/portfolio/EditPortfolioModal.tsx:46-53 | onSuccess iff the call succeeded; failure shows the message or "Failed to update portfolio"; submitting ends |
| EditPortfolioModal.SaveUnchanged | stockPortfolio/frontend/app/components/portfolio/EditPortfolioModal.tsx:29-54 | Saving untouched sends the same name and description ("" for none) iff the name is not blank; otherwise the name error |

## Left out

- HTTP, controllers, the axios client and its token interceptor are not modelled. Each API call is an outcome parameter, and bean validation is the `CheckRequest` function; the service methods take the validated, positive numbers as their precondition.
- Authentication, JWT handling and password encoding are foreign calls. The encoder is a function parameter of `CreateUser`.
- `searchStocks` and `getStocksBySymbols` in StockService are single repository queries with no logic of their own, and are not modelled.
- Repository queries:
  - The finders return rows in ascending id order; the source fixes no order.
  - `findByStockSymbol` is modelled as a case-sensitive substring match on the comma-joined symbols. The database's collation is not modelled.
  - The repositories' `ORDER BY publishedAt DESC` is modelled by the same stable sort as the service's stream sort, so ties keep ascending id order; the database fixes no order among ties.
  - Deleting a portfolio removes only its row. Cascades depend on the portfolio entity's mapping, and Portfolio.java is not part of this model.
- Clocks and randomness are parameters:
  - the time `now`;
  - the per-stock random factors of `updateStockPrices`;
  - the random numbers of the mock chart;
  - the scheduling of the periodic jobs.
- `fetchLatestNews` writes fixed mock articles, and StockInfo's employee count, CEO, founding year and headquarters are random. Neither is modelled.
- Dates are modelled as day or tick numbers, not ISO strings.
- Locale formatting (`Intl.NumberFormat`, `toLocaleString`, `toFixed` for display) is not modelled. The one `toFixed(2)` that changes a value, in the mock chart, is modelled as HALF_UP rounding to two places. JavaScript rounds the binary double, which can differ at exact ties.
- JavaScript numbers are modelled as exact reals, not doubles.
- `parseFloat` is not modelled character by character. A numeric input carries whether its text is non-empty and its parsed value, with `None` standing for NaN.
- Strings are sequences of Unicode scalar values, not UTF-16 units; char codes agree for the BMP only. Case mapping covers ASCII letters only.
- BigDecimal's scale is not tracked: values are compared as numbers, as `compareTo` does.
- While a request is pending, the intermediate `isSearching`, `isSubmitting` and `isLoading` states are visible between the two steps of each call. Edits made during that window are not interleaved with the call.
- Chart rendering libraries, icons, links and CSS beyond the class names the logic chooses are not modelled. So are the chart's tooltip text formatting and its unreachable `catch` branch.
- DashboardPage.ReturnPercentage: requires a non-zero total value when there are portfolios, because the source divides without a guard (NaN or Infinity in JavaScript).
- Chart.Share: defined only for a non-zero sum of values; the tooltip divides without a guard, so JavaScript would show NaN or Infinity.
- Chart.ShareTotalScales: requires a non-zero total value, because the tooltip divides without a guard.
- StockChart.CalculatePriceChange: requires a non-zero first price when there are two or more points, because the source divides without a guard; `GeneratedChange` shows generated series always meet it.
- Holdings.ProfitLossPercentage: requires a non-zero cost basis, because BigDecimal division by zero throws; `FromHolding` reports that case as a failure.
