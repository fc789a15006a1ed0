/**
 * The dialog that adds the stock shown on a stock page to one of the user's
 * portfolios. Quantity starts at 1 and the price at the stock's current price;
 * a successful add replaces the form with a confirmation.
 */
module AddToPortfolioModal {
  import opened Wrappers
  import opened Text
  import opened Ui
  import AddStockModal

  /** The stock the dialog was opened for. */
  datatype StockCard = StockCard(symbol: string, name: string, currentPrice: real, currency: string)

  /** An entry of the portfolio select. */
  datatype PortfolioOption = PortfolioOption(id: nat, name: string)

  const SelectPortfolioFirst := "Please select a portfolio"
  const NewPortfolioRoute := "/dashboard/portfolio/new"

  /**
   * `handleSubmit`'s checks, in order: a portfolio is selected (`None` is the
   * select's empty placeholder), then neither number is non-positive. Unlike the
   * portfolio page's dialog there is no check for empty inputs: an empty input
   * parses to NaN and passes.
   */
  function Validate(selected: Option<nat>, quantity: NumberField, purchasePrice: NumberField): (r: Option<string>)
    ensures r == Some(SelectPortfolioFirst) <==> selected.None?
    ensures r == Some(PositivityError) <==> selected.Some? && (NotPositive(quantity) || NotPositive(purchasePrice))
    ensures r.None? <==> selected.Some? && !NotPositive(quantity) && !NotPositive(purchasePrice)
  {
    if selected.None? then Some(SelectPortfolioFirst)
    else if NotPositive(quantity) || NotPositive(purchasePrice) then Some(PositivityError)
    else None
  }

  /** The submit button: also disabled while the user has no portfolio at all. */
  predicate SubmitDisabled(isSubmitting: bool, selected: Option<nat>, quantity: NumberField, purchasePrice: NumberField,
                           portfolios: seq<PortfolioOption>) {
    isSubmitting || selected.None? || !quantity.filled || !purchasePrice.filled || |portfolios| == 0
  }

  /** The ids the select offers. */
  predicate Offered(id: nat, portfolios: seq<PortfolioOption>) {
    exists k :: 0 <= k < |portfolios| && portfolios[k].id == id
  }

  /**
   * Validation alone lets an empty quantity through, and the enabled button is
   * what keeps it from being sent: with the button enabled both inputs are filled.
   */
  lemma EmptyInputPassesValidation(id: nat, purchasePrice: NumberField)
    requires !NotPositive(purchasePrice)
    ensures Validate(Some(id), EmptyField, purchasePrice).None?
    ensures SubmitDisabled(false, Some(id), EmptyField, purchasePrice, [PortfolioOption(id, "")])
  {
  }

  /**
   * The two add dialogs agree on a filled-in form: once a portfolio is chosen and
   * both inputs are filled, this dialog rejects exactly what the portfolio page's
   * dialog rejects for a stock symbol, with the same message.
   */
  lemma AgreesWithAddStockDialog(id: nat, symbol: string, quantity: NumberField, purchasePrice: NumberField)
    requires symbol != [] && quantity.filled && purchasePrice.filled
    ensures Validate(Some(id), quantity, purchasePrice) == AddStockModal.Validate(symbol, quantity, purchasePrice)
  {
  }

  /** The fresh form with a portfolio chosen passes validation whenever the stock's price is positive. */
  lemma FreshFormValid(id: nat, stock: StockCard)
    requires stock.currentPrice > 0.0
    ensures Validate(Some(id), FromNumber(1.0), FromNumber(stock.currentPrice)).None?
  {
  }

  /** What the dialog's body shows. */
  datatype Body =
    | Confirmation(quantity: NumberField, symbol: string)
    | Form(error: Option<string>, hasPortfolios: bool, submitDisabled: bool)

  class AddToPortfolioDialog {
    const stock: StockCard
    const portfolios: seq<PortfolioOption>
    var selectedPortfolio: Option<nat>
    var quantity: NumberField
    var purchasePrice: NumberField
    var isSubmitting: bool
    var error: Option<string>
    var success: bool
    /** Where the router was sent, if anywhere. */
    var route: Option<string>
    /** Whether `onClose` was called. */
    var closed: bool

    /** The selection is empty or one the select offers. */
    ghost predicate Valid()
      reads this
    {
      selectedPortfolio.None? || Offered(selectedPortfolio.value, portfolios)
    }

    constructor (stock: StockCard, portfolios: seq<PortfolioOption>)
      ensures this.stock == stock && this.portfolios == portfolios
      ensures selectedPortfolio.None? && quantity == FromNumber(1.0) && purchasePrice == FromNumber(stock.currentPrice)
      ensures !isSubmitting && error.None? && !success && route.None? && !closed
      ensures Valid()
    {
      this.stock := stock;
      this.portfolios := portfolios;
      selectedPortfolio := None;
      quantity := FromNumber(1.0);
      purchasePrice := FromNumber(stock.currentPrice);
      isSubmitting := false;
      error := None;
      success := false;
      route := None;
      closed := false;
    }

    function View(): (b: Body)
      reads this
      ensures b.Confirmation? <==> success
      ensures b.Form? ==> b.error == error && (b.hasPortfolios <==> |portfolios| > 0)
      ensures b.Form? ==> (b.submitDisabled <==> SubmitDisabled(isSubmitting, selectedPortfolio, quantity, purchasePrice, portfolios))
    {
      if success then Confirmation(quantity, stock.symbol)
      else Form(error, |portfolios| > 0, SubmitDisabled(isSubmitting, selectedPortfolio, quantity, purchasePrice, portfolios))
    }

    /** A choice in the portfolio select: the placeholder or one of the listed portfolios. */
    method SelectPortfolio(choice: Option<nat>)
      requires Valid()
      requires choice.None? || Offered(choice.value, portfolios)
      modifies this
      ensures Valid()
      ensures selectedPortfolio == choice
      ensures quantity == old(quantity) && purchasePrice == old(purchasePrice) && error == old(error)
      ensures isSubmitting == old(isSubmitting) && success == old(success) && route == old(route) && closed == old(closed)
    {
      selectedPortfolio := choice;
    }

    /** Typing in the quantity input. */
    method EditQuantity(f: NumberField)
      modifies this
      ensures quantity == f
      ensures selectedPortfolio == old(selectedPortfolio) && purchasePrice == old(purchasePrice) && error == old(error)
      ensures isSubmitting == old(isSubmitting) && success == old(success) && route == old(route) && closed == old(closed)
    {
      quantity := f;
    }

    /** Typing in the purchase price input. */
    method EditPurchasePrice(f: NumberField)
      modifies this
      ensures purchasePrice == f
      ensures selectedPortfolio == old(selectedPortfolio) && quantity == old(quantity) && error == old(error)
      ensures isSubmitting == old(isSubmitting) && success == old(success) && route == old(route) && closed == old(closed)
    {
      purchasePrice := f;
    }

    /**
     * The checks of `handleSubmit` and the sending of its request, the page's
     * add request for the dialog's stock. A failed check only shows its message.
     */
    method BeginSubmit() returns (request: Option<AddStockModal.AddRequest>)
      modifies this
      ensures request.None? <==> Validate(selectedPortfolio, quantity, purchasePrice).Some?
      ensures request.None? ==> error == Validate(selectedPortfolio, quantity, purchasePrice) && isSubmitting == old(isSubmitting)
      ensures request.Some? ==> (error.None? && isSubmitting
        && request.value == AddStockModal.AddRequest(selectedPortfolio.value, stock.symbol, quantity.value, purchasePrice.value))
      ensures selectedPortfolio == old(selectedPortfolio) && quantity == old(quantity) && purchasePrice == old(purchasePrice)
      ensures success == old(success) && route == old(route) && closed == old(closed)
    {
      var check := Validate(selectedPortfolio, quantity, purchasePrice);
      if check.Some? {
        error := check;
        request := None;
      } else {
        error := None;
        isSubmitting := true;
        request := Some(AddStockModal.AddRequest(selectedPortfolio.value, stock.symbol, quantity.value, purchasePrice.value));
      }
    }

    /** The outcome of the add request: success shows the confirmation; a failure shows its message. */
    method FinishSubmit(response: ApiOutcome<()>)
      modifies this
      ensures success == (old(success) || response.ApiOk?)
      ensures !isSubmitting
      ensures error == (if response.ApiFailed? then Some(ErrorText(response.message, AddStockModal.AddFailed)) else old(error))
      ensures selectedPortfolio == old(selectedPortfolio) && quantity == old(quantity) && purchasePrice == old(purchasePrice)
      ensures route == old(route) && closed == old(closed)
    {
      match response {
        case ApiOk(_) =>
          success := true;
        case ApiFailed(message) =>
          error := Some(ErrorText(message, AddStockModal.AddFailed));
      }
      isSubmitting := false;
    }

    /** `handleCreatePortfolio`: go to the new-portfolio page and close the dialog. */
    method CreatePortfolio()
      modifies this
      ensures route == Some(NewPortfolioRoute) && closed
      ensures selectedPortfolio == old(selectedPortfolio) && quantity == old(quantity) && purchasePrice == old(purchasePrice)
      ensures isSubmitting == old(isSubmitting) && error == old(error) && success == old(success)
    {
      route := Some(NewPortfolioRoute);
      closed := true;
    }

    /**
     * The confirmation's View Portfolio button: the selected portfolio's page. The
     * placeholder (an empty selection) leaves the id out of the path.
     */
    method ViewPortfolio()
      modifies this
      ensures route == Some("/dashboard/portfolio/" + (if selectedPortfolio.Some? then NatToString(selectedPortfolio.value) else ""))
      ensures selectedPortfolio == old(selectedPortfolio) && quantity == old(quantity) && purchasePrice == old(purchasePrice)
      ensures isSubmitting == old(isSubmitting) && error == old(error) && success == old(success) && closed == old(closed)
    {
      route := Some("/dashboard/portfolio/" + (if selectedPortfolio.Some? then NatToString(selectedPortfolio.value) else ""));
    }
  }

  /**
   * Opening the dialog, choosing a listed portfolio and submitting the untouched
   * form: for a stock with a positive price, one share at the current price is
   * sent to that portfolio, and the confirmation shows exactly when the add succeeds.
   */
  method QuickAdd(stock: StockCard, portfolios: seq<PortfolioOption>, k: nat, response: ApiOutcome<()>)
    returns (request: Option<AddStockModal.AddRequest>, confirmed: bool)
    requires k < |portfolios| && stock.currentPrice > 0.0
    ensures request == Some(AddStockModal.AddRequest(portfolios[k].id, stock.symbol, Some(1.0), Some(stock.currentPrice)))
    ensures confirmed <==> response.ApiOk?
  {
    var dialog := new AddToPortfolioDialog(stock, portfolios);
    dialog.SelectPortfolio(Some(portfolios[k].id));
    request := dialog.BeginSubmit();
    dialog.FinishSubmit(response);
    confirmed := dialog.View().Confirmation?;
  }
}
