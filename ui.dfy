/**
 * What the frontend components share: the shape of an API call's outcome, the
 * error text a form shows for a failed call, numeric form fields, and the JSON
 * records the components receive from the backend.
 */
module Ui {
  import opened Wrappers

  /**
   * How an awaited API call ends: with the response body, or by throwing. A thrown
   * error carries the server's `message` field when the response had one.
   */
  datatype ApiOutcome<+T> = ApiOk(value: T) | ApiFailed(message: Option<string>)

  /** `err.response?.data?.message || fallback`: an absent or empty message is falsy. */
  function ErrorText(message: Option<string>, fallback: string): (r: string)
    ensures Truthy(message) ==> r == message.value
    ensures !Truthy(message) ==> r == fallback
    ensures r == "" ==> fallback == ""
  {
    if Truthy(message) then message.value else fallback
  }

  /**
   * A numeric input of a form. `filled` is whether the input's text is non-empty
   * (the text is truthy); `value` is `parseFloat` of the text, `None` standing for
   * NaN. An empty text always parses to NaN.
   */
  datatype NumberField = NumberField(filled: bool, value: Option<real>)

  predicate WellFormed(f: NumberField) {
    !f.filled ==> f.value.None?
  }

  /** The empty input. */
  const EmptyField := NumberField(false, None)

  /** The input holding `n.toString()`, which is non-empty and parses back to n. */
  function FromNumber(n: real): (f: NumberField)
    ensures WellFormed(f) && f.filled && f.value == Some(n)
  {
    NumberField(true, Some(n))
  }

  /** `parseFloat(text) <= 0`; NaN compares false, so an unparsable input is not rejected. */
  predicate NotPositive(f: NumberField) {
    f.value.Some? && f.value.value <= 0.0
  }

  /** The message the forms show for a non-positive quantity or price. */
  const PositivityError := "Quantity and purchase price must be positive values"

  /** The signed-in user as the frontend keeps it. */
  datatype SessionUser = SessionUser(id: nat, username: string, email: string, preferredCurrency: string)

  /** One entry of `GET /portfolios`, a portfolio summary. */
  datatype PortfolioCard = PortfolioCard(
    id: nat,
    name: string,
    description: Option<string>,
    stockCount: nat,
    totalValue: real,
    totalProfitLoss: real,
    totalProfitLossPercentage: real,
    currency: string)

  /**
   * One news article as the frontend receives it. The TypeScript interface types
   * `relatedSymbols` as a string, but the column is nullable and the JSON then
   * carries null.
   */
  datatype NewsItem = NewsItem(
    id: nat,
    title: string,
    summary: string,
    source: string,
    url: string,
    imageUrl: Option<string>,
    publishedAt: int,
    relatedSymbols: Option<string>)

  /** A JavaScript string is truthy when it is present and non-empty. */
  predicate Truthy(s: Option<string>) {
    s.Some? && s.value != ""
  }
}
