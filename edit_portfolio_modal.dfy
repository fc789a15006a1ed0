/**
 * The dialog that renames a portfolio or changes its description. The name must
 * not be blank; it is sent as typed, untrimmed.
 */
module EditPortfolioModal {
  import opened Wrappers
  import opened Text
  import opened Ui

  /** The portfolio the dialog was opened for; only these fields are used. */
  datatype PortfolioHeader = PortfolioHeader(id: nat, name: string, description: Option<string>)

  /** `updatePortfolio(portfolio.id, name, description)`. */
  datatype UpdateRequest = UpdateRequest(portfolioId: nat, name: string, description: string)

  const NameRequired := "Portfolio name is required"
  const UpdateFailed := "Failed to update portfolio"

  /** `portfolio.description || ''`: an absent description starts out as the empty text. */
  function InitialDescription(description: Option<string>): (r: string)
    ensures Truthy(description) ==> r == description.value
    ensures !Truthy(description) ==> r == ""
  {
    if Truthy(description) then description.value else ""
  }

  /** `handleSubmit`'s check: the trimmed name must not be empty. */
  function Validate(name: string): (r: Option<string>)
    ensures r.None? <==> Trim(name) != []
    ensures r.Some? ==> r.value == NameRequired
  {
    if Trim(name) == [] then Some(NameRequired) else None
  }

  /** The submit button: disabled while submitting or while the trimmed name is empty. */
  predicate SubmitDisabled(isSubmitting: bool, name: string) {
    isSubmitting || Trim(name) == []
  }

  /**
   * A name is rejected exactly when every character of it is whitespace, and the
   * enabled button is never rejected.
   */
  lemma RejectedExactlyWhenBlank(name: string)
    ensures Validate(name).Some? <==> AllWhitespace(name)
    ensures !SubmitDisabled(false, name) ==> Validate(name).None?
  {
    TrimEmpty(name);
  }

  class EditPortfolioDialog {
    const portfolio: PortfolioHeader
    var name: string
    var description: string
    var isSubmitting: bool
    var error: Option<string>

    constructor (portfolio: PortfolioHeader)
      ensures this.portfolio == portfolio
      ensures name == portfolio.name && description == InitialDescription(portfolio.description)
      ensures !isSubmitting && error.None?
    {
      this.portfolio := portfolio;
      name := portfolio.name;
      description := InitialDescription(portfolio.description);
      isSubmitting := false;
      error := None;
    }

    /** Typing in the name input. */
    method EditName(text: string)
      modifies this
      ensures name == text && description == old(description)
      ensures isSubmitting == old(isSubmitting) && error == old(error)
    {
      name := text;
    }

    /** Typing in the description input. */
    method EditDescription(text: string)
      modifies this
      ensures description == text && name == old(name)
      ensures isSubmitting == old(isSubmitting) && error == old(error)
    {
      description := text;
    }

    /** The check of `handleSubmit` and the sending of its request. */
    method BeginSubmit() returns (request: Option<UpdateRequest>)
      modifies this
      ensures request.None? <==> Validate(name).Some?
      ensures request.None? ==> error == Validate(name) && isSubmitting == old(isSubmitting)
      ensures request.Some? ==> error.None? && isSubmitting && request.value == UpdateRequest(portfolio.id, name, description)
      ensures name == old(name) && description == old(description)
    {
      var check := Validate(name);
      if check.Some? {
        error := check;
        request := None;
      } else {
        error := None;
        isSubmitting := true;
        request := Some(UpdateRequest(portfolio.id, name, description));
      }
    }

    /** The outcome of the update: success calls `onSuccess` (`succeeded`); a failure shows its message. */
    method FinishSubmit(response: ApiOutcome<()>) returns (succeeded: bool)
      modifies this
      ensures succeeded <==> response.ApiOk?
      ensures !isSubmitting
      ensures error == (if response.ApiFailed? then Some(ErrorText(response.message, UpdateFailed)) else old(error))
      ensures name == old(name) && description == old(description)
    {
      match response {
        case ApiOk(_) =>
          succeeded := true;
        case ApiFailed(message) =>
          succeeded := false;
          error := Some(ErrorText(message, UpdateFailed));
      }
      isSubmitting := false;
    }
  }

  /**
   * Saving the dialog without touching it: a portfolio with a non-blank name is
   * sent back with the same name and description, except that an absent or empty
   * description is sent as the empty text; a blank name is refused with its message.
   */
  method SaveUnchanged(portfolio: PortfolioHeader, response: ApiOutcome<()>)
    returns (request: Option<UpdateRequest>, succeeded: bool, error: Option<string>)
    ensures request.Some? <==> !AllWhitespace(portfolio.name)
    ensures request.Some? ==> request.value.portfolioId == portfolio.id && request.value.name == portfolio.name
    ensures request.Some? ==> (request.value.description == if Truthy(portfolio.description) then portfolio.description.value else "")
    ensures succeeded <==> request.Some? && response.ApiOk?
    ensures request.None? ==> error == Some(NameRequired)
  {
    RejectedExactlyWhenBlank(portfolio.name);
    var dialog := new EditPortfolioDialog(portfolio);
    request := dialog.BeginSubmit();
    succeeded := false;
    if request.Some? {
      succeeded := dialog.FinishSubmit(response);
    }
    error := dialog.error;
  }
}
