/** The checkout dialog of `src/components/CheckoutPopup.jsx`: form validation, the submitting flag
    held around the parent's checkout handler, and its own image converter with a remote placeholder. */
module CheckoutPopup {
  import opened Wrappers
  import Catalog
  import Display

  /** The arguments of one `handleCheckout(name, email)` call. */
  datatype CheckoutCall = CheckoutCall(name: string, email: string)

  /** The image converter of the dialog: the placeholder URL stands for a missing image. */
  function ItemImage(s: Option<string>): (r: string)
    ensures !Catalog.Truthy(s) ==> r == Display.Placeholder
    ensures Catalog.Truthy(s) ==> r == Display.ToDataUrl(s, Display.DefaultMime, Display.Unplugged)
  {
    Display.ToDataUrl(s, Display.DefaultMime, Display.Placeholder)
  }

  class CheckoutPopupState {
    var name: string
    var email: string
    var validated: bool
    var isSubmitting: bool

    constructor ()
      ensures name == "" && email == "" && !validated && !isSubmitting
    {
      name, email, validated, isSubmitting := "", "", false, false;
    }

    /** Typing in the name field. */
    method EditName(value: string)
      modifies this
      ensures name == value && email == old(email)
      ensures validated == old(validated) && isSubmitting == old(isSubmitting)
    {
      name := value;
    }

    /** Typing in the email field. */
    method EditEmail(value: string)
      modifies this
      ensures email == value && name == old(name)
      ensures validated == old(validated) && isSubmitting == old(isSubmitting)
    {
      email := value;
    }

    /** Both footer buttons are disabled exactly while a submission is in flight. */
    function ButtonsDisabled(): (r: bool)
      reads this
      ensures r <==> isSubmitting
    {
      isSubmitting
    }

    /** `onConfirm` for a form whose browser validity is `formValid`, with the parent's handler
        rejecting or not. An invalid form only marks the form validated. A valid one calls the handler
        with the entered name and email while submitting, then clears the flag even when the handler
        rejects, and passes the rejection on. */
    method OnConfirm(formValid: bool, handlerRejects: bool)
      returns (call: Option<CheckoutCall>, rejected: bool, ghost submittingDuringCall: bool)
      modifies this
      ensures validated
      ensures !formValid ==> call == None && !rejected && isSubmitting == old(isSubmitting)
      ensures formValid ==> call == Some(CheckoutCall(name, email)) && submittingDuringCall
      ensures formValid ==> rejected == handlerRejects && !isSubmitting
      ensures name == old(name) && email == old(email)
    {
      validated := true;
      if !formValid {
        return None, false, false;
      }
      isSubmitting := true;
      call := Some(CheckoutCall(name, email));
      submittingDuringCall := isSubmitting;
      rejected := handlerRejects;
      isSubmitting := false;
    }
  }
}
