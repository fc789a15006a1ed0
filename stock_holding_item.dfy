/**
 * One row of a portfolio's holdings table. The row can switch to an edit form for
 * the quantity and purchase price; a successful save writes the new numbers into
 * the holding object the row was given, which the page's list shares.
 */
module StockHoldingItem {
  import opened Wrappers
  import opened Ui

  /**
   * A holding as the portfolio page holds it. Quantity and purchase price are
   * written in place after an edit; `None` stands for NaN, which `parseFloat` of
   * an unparsable input puts there.
   */
  class HoldingRow {
    const id: nat
    const symbol: string
    const name: string
    var quantity: Option<real>
    var purchasePrice: Option<real>
    const currentPrice: real
    var currentValue: real
    var profitLoss: real
    var profitLossPercentage: real

    constructor (id: nat, symbol: string, name: string, quantity: real, purchasePrice: real, currentPrice: real,
                 currentValue: real, profitLoss: real, profitLossPercentage: real)
      ensures this.id == id && this.symbol == symbol && this.name == name
      ensures this.quantity == Some(quantity) && this.purchasePrice == Some(purchasePrice)
      ensures this.currentPrice == currentPrice && this.currentValue == currentValue
      ensures this.profitLoss == profitLoss && this.profitLossPercentage == profitLossPercentage
    {
      this.id := id;
      this.symbol := symbol;
      this.name := name;
      this.quantity := Some(quantity);
      this.purchasePrice := Some(purchasePrice);
      this.currentPrice := currentPrice;
      this.currentValue := currentValue;
      this.profitLoss := profitLoss;
      this.profitLossPercentage := profitLossPercentage;
    }
  }

  /** The input holding `n.toString()`: never empty, and it parses back to n (NaN to NaN). */
  function FromValue(n: Option<real>): (f: NumberField)
    ensures WellFormed(f) && f.filled && f.value == n
  {
    NumberField(true, n)
  }

  /** `updateStockHolding(portfolioId, holdingId, parseFloat(quantity), parseFloat(purchasePrice))`. */
  datatype UpdateRequest = UpdateRequest(portfolioId: nat, holdingId: nat, quantity: Option<real>, purchasePrice: Option<real>)

  const UpdateFailed := "Failed to update stock holding"

  /** The edit form's only check: neither number is non-positive. `None` lets the save go ahead. */
  function Validate(quantity: NumberField, purchasePrice: NumberField): (r: Option<string>)
    ensures r.None? <==> !NotPositive(quantity) && !NotPositive(purchasePrice)
    ensures r.Some? ==> r.value == PositivityError
  {
    if NotPositive(quantity) || NotPositive(purchasePrice) then Some(PositivityError) else None
  }

  /** The value shown while editing: the typed quantity times the current price (NaN when unparsable). */
  function PreviewValue(quantity: NumberField, currentPrice: real): (r: Option<real>)
    ensures r.Some? <==> quantity.value.Some?
  {
    if quantity.value.Some? then Some(quantity.value.value * currentPrice) else None
  }

  /** The profit or loss shown while editing: the typed quantity times the gap between current and typed price. */
  function PreviewProfitLoss(quantity: NumberField, purchasePrice: NumberField, currentPrice: real): (r: Option<real>)
    ensures r.Some? <==> quantity.value.Some? && purchasePrice.value.Some?
  {
    if quantity.value.Some? && purchasePrice.value.Some? then
      Some(quantity.value.value * (currentPrice - purchasePrice.value.value))
    else None
  }

  /**
   * The previewed profit or loss is the previewed value minus the typed cost,
   * and for a positive quantity it is a gain exactly when the current price is at
   * least the typed price, as the backend computes it for a saved holding.
   */
  lemma PreviewIsValueMinusCost(quantity: NumberField, purchasePrice: NumberField, currentPrice: real)
    requires quantity.value.Some? && purchasePrice.value.Some?
    ensures PreviewProfitLoss(quantity, purchasePrice, currentPrice).value
      == PreviewValue(quantity, currentPrice).value - quantity.value.value * purchasePrice.value.value
    ensures quantity.value.value > 0.0 ==>
      (PreviewProfitLoss(quantity, purchasePrice, currentPrice).value >= 0.0 <==> currentPrice >= purchasePrice.value.value)
  {
    var q := quantity.value.value;
    var gap := currentPrice - purchasePrice.value.value;
    if q > 0.0 {
      if gap < 0.0 {
        assert q * gap < 0.0;
      } else {
        assert q * gap >= 0.0;
      }
    }
  }

  /** What the row shows. */
  datatype RowView =
    | EditRow(valuePreview: Option<real>, profitLossPreview: Option<real>, error: Option<string>, saveDisabled: bool)
    | DisplayRow(quantity: Option<real>, purchasePrice: Option<real>, currentValue: real, profitLoss: real)

  class StockHoldingItemState {
    const holding: HoldingRow
    const portfolioId: nat
    var isEditing: bool
    var quantity: NumberField
    var purchasePrice: NumberField
    var isSubmitting: bool
    var error: Option<string>

    constructor (holding: HoldingRow, portfolioId: nat)
      ensures this.holding == holding && this.portfolioId == portfolioId
      ensures !isEditing && !isSubmitting && error.None?
      ensures quantity == FromValue(holding.quantity) && purchasePrice == FromValue(holding.purchasePrice)
    {
      this.holding := holding;
      this.portfolioId := portfolioId;
      isEditing := false;
      quantity := FromValue(holding.quantity);
      purchasePrice := FromValue(holding.purchasePrice);
      isSubmitting := false;
      error := None;
    }

    function View(): (v: RowView)
      reads this, holding
      ensures v.EditRow? <==> isEditing
      ensures v.EditRow? ==> v == EditRow(PreviewValue(quantity, holding.currentPrice),
                                          PreviewProfitLoss(quantity, purchasePrice, holding.currentPrice), error, isSubmitting)
      ensures v.DisplayRow? ==> v == DisplayRow(holding.quantity, holding.purchasePrice, holding.currentValue, holding.profitLoss)
    {
      if isEditing then
        EditRow(PreviewValue(quantity, holding.currentPrice), PreviewProfitLoss(quantity, purchasePrice, holding.currentPrice),
                error, isSubmitting)
      else DisplayRow(holding.quantity, holding.purchasePrice, holding.currentValue, holding.profitLoss)
    }

    /** The Edit button. */
    method StartEdit()
      modifies this
      ensures isEditing
      ensures quantity == old(quantity) && purchasePrice == old(purchasePrice)
      ensures isSubmitting == old(isSubmitting) && error == old(error)
    {
      isEditing := true;
    }

    /** Typing in the quantity input. */
    method EditQuantity(f: NumberField)
      modifies this
      ensures quantity == f
      ensures isEditing == old(isEditing) && purchasePrice == old(purchasePrice)
      ensures isSubmitting == old(isSubmitting) && error == old(error)
    {
      quantity := f;
    }

    /** Typing in the purchase price input. */
    method EditPurchasePrice(f: NumberField)
      modifies this
      ensures purchasePrice == f
      ensures isEditing == old(isEditing) && quantity == old(quantity)
      ensures isSubmitting == old(isSubmitting) && error == old(error)
    {
      purchasePrice := f;
    }

    /**
     * The check of `handleEditSubmit` and the sending of its request. A failed
     * check only shows its message and the row stays in edit mode.
     */
    method BeginEditSubmit() returns (request: Option<UpdateRequest>)
      modifies this
      ensures request.None? <==> Validate(quantity, purchasePrice).Some?
      ensures request.None? ==> error == Validate(quantity, purchasePrice) && isSubmitting == old(isSubmitting)
      ensures request.Some? ==> (error.None? && isSubmitting
        && request.value == UpdateRequest(portfolioId, holding.id, quantity.value, purchasePrice.value))
      ensures isEditing == old(isEditing) && quantity == old(quantity) && purchasePrice == old(purchasePrice)
    {
      var check := Validate(quantity, purchasePrice);
      if check.Some? {
        error := check;
        request := None;
      } else {
        error := None;
        isSubmitting := true;
        request := Some(UpdateRequest(portfolioId, holding.id, quantity.value, purchasePrice.value));
      }
    }

    /**
     * The outcome of the update. Success writes the typed numbers into the shared
     * holding and leaves edit mode; the holding's value and profit figures are not
     * recomputed. A failure shows its message and changes nothing else.
     */
    method FinishEditSubmit(response: ApiOutcome<()>)
      modifies this, holding
      ensures !isSubmitting
      ensures response.ApiOk? ==> (holding.quantity == quantity.value && holding.purchasePrice == purchasePrice.value
        && !isEditing && error == old(error))
      ensures response.ApiFailed? ==> (holding.quantity == old(holding.quantity)
        && holding.purchasePrice == old(holding.purchasePrice)
        && isEditing == old(isEditing) && error == Some(ErrorText(response.message, UpdateFailed)))
      ensures holding.currentValue == old(holding.currentValue) && holding.profitLoss == old(holding.profitLoss)
      ensures holding.profitLossPercentage == old(holding.profitLossPercentage)
      ensures quantity == old(quantity) && purchasePrice == old(purchasePrice)
    {
      match response {
        case ApiOk(_) =>
          holding.quantity := quantity.value;
          holding.purchasePrice := purchasePrice.value;
          isEditing := false;
        case ApiFailed(message) =>
          error := Some(ErrorText(message, UpdateFailed));
      }
      isSubmitting := false;
    }

    /** `handleCancel`: the inputs go back to the holding's numbers and the row leaves edit mode. */
    method Cancel()
      modifies this
      ensures quantity == FromValue(holding.quantity) && purchasePrice == FromValue(holding.purchasePrice)
      ensures error.None? && !isEditing && isSubmitting == old(isSubmitting)
    {
      quantity := FromValue(holding.quantity);
      purchasePrice := FromValue(holding.purchasePrice);
      error := None;
      isEditing := false;
    }

    /** The Remove button: the holding's id, passed to `onRemove`. */
    function RemoveTarget(): (id: nat)
      reads this, holding
      ensures id == holding.id
    {
      holding.id
    }
  }

  /**
   * Editing a row and pressing Save: the holding's numbers become the typed ones
   * exactly when they pass the check and the update succeeds; otherwise they stay,
   * and the row stays in edit mode. Cancelling afterwards shows the holding's
   * numbers in the inputs again.
   */
  method EditAndSave(id: nat, q0: real, p0: real, currentPrice: real, portfolioId: nat,
                     q: NumberField, p: NumberField, response: ApiOutcome<()>)
    returns (request: Option<UpdateRequest>, savedQuantity: Option<real>, savedPrice: Option<real>, stillEditing: bool,
             resetQuantity: NumberField)
    ensures request.Some? <==> Validate(q, p).None?
    ensures request.Some? ==> request.value == UpdateRequest(portfolioId, id, q.value, p.value)
    ensures request.Some? && response.ApiOk? ==> savedQuantity == q.value && savedPrice == p.value && !stillEditing
    ensures !(request.Some? && response.ApiOk?) ==> savedQuantity == Some(q0) && savedPrice == Some(p0) && stillEditing
    ensures resetQuantity == FromValue(savedQuantity)
  {
    var holding := new HoldingRow(id, "", "", q0, p0, currentPrice, q0 * currentPrice, q0 * (currentPrice - p0), 0.0);
    var item := new StockHoldingItemState(holding, portfolioId);
    item.StartEdit();
    item.EditQuantity(q);
    item.EditPurchasePrice(p);
    request := item.BeginEditSubmit();
    if request.Some? {
      item.FinishEditSubmit(response);
    }
    savedQuantity, savedPrice, stillEditing := holding.quantity, holding.purchasePrice, item.isEditing;
    item.Cancel();
    resetQuantity := item.quantity;
  }
}
