/**
 * The dialog that adds a stock to a portfolio from the portfolio page: search by
 * symbol, pick a result, enter quantity and purchase price, submit. Each awaited
 * request is split into the step that sends it and the step that handles its
 * outcome, with the outcome as a parameter.
 */
module AddStockModal {
  import opened Wrappers
  import opened Text
  import opened Ui

  /** A search result; the dialog uses only its symbol and name. */
  datatype StockHit = StockHit(symbol: string, name: string)

  /** `addStockToPortfolio(portfolioId, symbol, parseFloat(quantity), parseFloat(purchasePrice))`. */
  datatype AddRequest = AddRequest(portfolioId: nat, symbol: string, quantity: Option<real>, purchasePrice: Option<real>)

  const FillAllFields := "Please fill in all fields"
  const NoMatches := "No stocks found with this symbol or name."
  const SearchFailed := "Failed to search for stocks. Please try again."
  const AddFailed := "Failed to add stock to portfolio"

  /** Some field is empty. */
  predicate MissingField(symbol: string, quantity: NumberField, purchasePrice: NumberField) {
    symbol == [] || !quantity.filled || !purchasePrice.filled
  }

  /**
   * `handleSubmit`'s checks, in order: every field filled, then neither number
   * non-positive. The result is the error shown, or `None` when the request is sent.
   */
  function Validate(symbol: string, quantity: NumberField, purchasePrice: NumberField): (r: Option<string>)
    ensures r == Some(FillAllFields) <==> MissingField(symbol, quantity, purchasePrice)
    ensures r == Some(PositivityError) <==>
      !MissingField(symbol, quantity, purchasePrice) && (NotPositive(quantity) || NotPositive(purchasePrice))
    ensures r.None? <==>
      !MissingField(symbol, quantity, purchasePrice) && !NotPositive(quantity) && !NotPositive(purchasePrice)
  {
    if MissingField(symbol, quantity, purchasePrice) then Some(FillAllFields)
    else if NotPositive(quantity) || NotPositive(purchasePrice) then Some(PositivityError)
    else None
  }

  /** The submit button: disabled while submitting or while some field is empty. */
  predicate SubmitDisabled(isSubmitting: bool, symbol: string, quantity: NumberField, purchasePrice: NumberField) {
    isSubmitting || MissingField(symbol, quantity, purchasePrice)
  }

  /** The search button: disabled while searching or while the symbol is blank. */
  predicate SearchDisabled(isSearching: bool, symbol: string) {
    isSearching || Trim(symbol) == []
  }

  /**
   * The enabled submit button never leads to the missing-field message: only the
   * positivity check can still stop it. A filled number that does not parse
   * (NaN) is not caught by that check either.
   */
  lemma EnabledSubmitPassesFillCheck(symbol: string, quantity: NumberField, purchasePrice: NumberField)
    requires !SubmitDisabled(false, symbol, quantity, purchasePrice)
    ensures Validate(symbol, quantity, purchasePrice) != Some(FillAllFields)
    ensures quantity.value.None? && !NotPositive(purchasePrice) ==> Validate(symbol, quantity, purchasePrice).None?
  {
  }

  /** A blank symbol is exactly one made of whitespace, so its search button is disabled. */
  lemma BlankSymbolCannotSearch(symbol: string)
    requires AllWhitespace(symbol)
    ensures SearchDisabled(false, symbol)
  {
    TrimEmpty(symbol);
  }

  class AddStockDialog {
    const portfolioId: nat
    var symbol: string
    var quantity: NumberField
    var purchasePrice: NumberField
    var searchResults: seq<StockHit>
    var isSearching: bool
    var isSubmitting: bool
    var error: Option<string>
    var selectedStock: Option<StockHit>

    constructor (portfolioId: nat)
      ensures this.portfolioId == portfolioId
      ensures symbol == [] && quantity == EmptyField && purchasePrice == EmptyField
      ensures searchResults == [] && !isSearching && !isSubmitting && error.None? && selectedStock.None?
    {
      this.portfolioId := portfolioId;
      symbol := [];
      quantity := EmptyField;
      purchasePrice := EmptyField;
      searchResults := [];
      isSearching := false;
      isSubmitting := false;
      error := None;
      selectedStock := None;
    }

    /** Typing in the symbol input. */
    method EditSymbol(text: string)
      modifies this
      ensures symbol == text
      ensures quantity == old(quantity) && purchasePrice == old(purchasePrice) && searchResults == old(searchResults)
      ensures error == old(error) && selectedStock == old(selectedStock)
      ensures isSearching == old(isSearching) && isSubmitting == old(isSubmitting)
    {
      symbol := text;
    }

    /** Typing in the quantity input. */
    method EditQuantity(f: NumberField)
      modifies this
      ensures quantity == f
      ensures symbol == old(symbol) && purchasePrice == old(purchasePrice) && searchResults == old(searchResults)
      ensures error == old(error) && selectedStock == old(selectedStock)
      ensures isSearching == old(isSearching) && isSubmitting == old(isSubmitting)
    {
      quantity := f;
    }

    /** Typing in the purchase price input. */
    method EditPurchasePrice(f: NumberField)
      modifies this
      ensures purchasePrice == f
      ensures symbol == old(symbol) && quantity == old(quantity) && searchResults == old(searchResults)
      ensures error == old(error) && selectedStock == old(selectedStock)
      ensures isSearching == old(isSearching) && isSubmitting == old(isSubmitting)
    {
      purchasePrice := f;
    }

    /**
     * `handleSearchStock`. A blank symbol does nothing. Otherwise the search is
     * sent with the symbol as typed, untrimmed (`query`), and, when it returns, its results replace the list, with
     * an error when there are none; a failed search keeps the old list and sets
     * its own error.
     */
    method SearchStock(response: ApiOutcome<seq<StockHit>>) returns (query: Option<string>)
      modifies this
      ensures query.Some? <==> Trim(old(symbol)) != []
      ensures query.Some? ==> query.value == old(symbol)
      ensures query.None? ==> unchanged(this)
      ensures query.Some? ==> (!isSearching
        && searchResults == (if response.ApiOk? then response.value else old(searchResults))
        && error == (if response.ApiFailed? then Some(SearchFailed)
                     else if response.value == [] then Some(NoMatches) else None))
      ensures symbol == old(symbol) && quantity == old(quantity) && purchasePrice == old(purchasePrice)
      ensures selectedStock == old(selectedStock) && isSubmitting == old(isSubmitting)
    {
      if Trim(symbol) == [] {
        return None;
      }
      query := Some(symbol);
      error := None;
      isSearching := true;
      match response {
        case ApiOk(results) =>
          searchResults := results;
          if results == [] {
            error := Some(NoMatches);
          }
        case ApiFailed(_) =>
          error := Some(SearchFailed);
      }
      isSearching := false;
    }

    /** `handleSelectStock`: the pick becomes the selection, its symbol fills the input, and the list closes. */
    method SelectStock(hit: StockHit)
      modifies this
      ensures selectedStock == Some(hit) && symbol == hit.symbol && searchResults == []
      ensures quantity == old(quantity) && purchasePrice == old(purchasePrice) && error == old(error)
      ensures isSearching == old(isSearching) && isSubmitting == old(isSubmitting)
    {
      selectedStock := Some(hit);
      symbol := hit.symbol;
      searchResults := [];
    }

    /**
     * The checks of `handleSubmit` and the sending of its request. A failed check
     * shows its message and sends nothing; otherwise the error is cleared,
     * submitting starts and the request is returned.
     */
    method BeginSubmit() returns (request: Option<AddRequest>)
      modifies this
      ensures request.None? <==> Validate(symbol, quantity, purchasePrice).Some?
      ensures request.None? ==> error == Validate(symbol, quantity, purchasePrice) && isSubmitting == old(isSubmitting)
      ensures request.Some? ==> (error.None? && isSubmitting
        && request.value == AddRequest(portfolioId, symbol, quantity.value, purchasePrice.value))
      ensures symbol == old(symbol) && quantity == old(quantity) && purchasePrice == old(purchasePrice)
      ensures searchResults == old(searchResults) && selectedStock == old(selectedStock) && isSearching == old(isSearching)
    {
      var check := Validate(symbol, quantity, purchasePrice);
      if check.Some? {
        error := check;
        request := None;
      } else {
        error := None;
        isSubmitting := true;
        request := Some(AddRequest(portfolioId, symbol, quantity.value, purchasePrice.value));
      }
    }

    /**
     * The outcome of the add request: success calls `onSuccess` (`succeeded`); a
     * failure shows the server's message or the fallback. Submitting ends either way.
     */
    method FinishSubmit(response: ApiOutcome<()>) returns (succeeded: bool)
      modifies this
      ensures succeeded <==> response.ApiOk?
      ensures !isSubmitting
      ensures error == (if response.ApiFailed? then Some(ErrorText(response.message, AddFailed)) else old(error))
      ensures symbol == old(symbol) && quantity == old(quantity) && purchasePrice == old(purchasePrice)
      ensures searchResults == old(searchResults) && selectedStock == old(selectedStock) && isSearching == old(isSearching)
    {
      match response {
        case ApiOk(_) =>
          succeeded := true;
        case ApiFailed(message) =>
          succeeded := false;
          error := Some(ErrorText(message, AddFailed));
      }
      isSubmitting := false;
    }
  }

  /**
   * One press of an enabled submit button on a fresh dialog whose fields were
   * filled in: the add request goes out exactly when the numbers pass the
   * positivity check, and `onSuccess` runs exactly when it then succeeds.
   */
  method SubmitFilledForm(portfolioId: nat, symbol: string, quantity: NumberField, purchasePrice: NumberField,
                          response: ApiOutcome<()>)
    returns (request: Option<AddRequest>, succeeded: bool)
    requires !SubmitDisabled(false, symbol, quantity, purchasePrice)
    ensures request.Some? <==> !NotPositive(quantity) && !NotPositive(purchasePrice)
    ensures request.Some? ==> request.value == AddRequest(portfolioId, symbol, quantity.value, purchasePrice.value)
    ensures succeeded <==> request.Some? && response.ApiOk?
  {
    var dialog := new AddStockDialog(portfolioId);
    dialog.EditSymbol(symbol);
    dialog.EditQuantity(quantity);
    dialog.EditPurchasePrice(purchasePrice);
    request := dialog.BeginSubmit();
    succeeded := false;
    if request.Some? {
      succeeded := dialog.FinishSubmit(response);
    }
  }
}
