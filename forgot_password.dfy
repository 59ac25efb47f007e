/** The Forgot Password page: a form that, once submitted with an email, turns
    into a confirmation view until "Try again" is pressed. */
module ForgotPassword {

  datatype View = RequestForm | Confirmation(email: string)

  /** What a submission reports. */
  datatype SubmitOutcome = EmailMissing | LinkSent

  class ForgotPasswordPage {
    var email: string
    var submitted: bool

    constructor ()
      ensures email == "" && !submitted
    {
      email, submitted := "", false;
    }

    /** The page renders the confirmation exactly when `submitted` is set. */
    function CurrentView(): (v: View)
      reads this
      ensures v.Confirmation? <==> submitted
      ensures v.Confirmation? ==> v.email == email
    {
      if submitted then Confirmation(email) else RequestForm
    }

    method SetEmail(value: string)
      modifies this
      ensures email == value && submitted == old(submitted)
    {
      email := value;
    }

    /** `handleSubmit`. */
    method Submit() returns (outcome: SubmitOutcome)
      modifies this
      ensures old(email) == "" ==> outcome == EmailMissing && submitted == old(submitted)
      ensures old(email) != "" ==> outcome == LinkSent && submitted
      ensures email == old(email)
    {
      if email == "" {
        return EmailMissing;
      }
      submitted := true;
      return LinkSent;
    }

    /** The "Try again" button: back to the form with the email kept. */
    method TryAgain()
      modifies this
      ensures !submitted && email == old(email)
    {
      submitted := false;
    }
  }

  /** From a fresh page, an empty submission stays on the form; a filled one shows
      the confirmation; "Try again" returns to the form with the email still there. */
  method SubmitThenTryAgain(address: string) returns (afterSubmit: View, afterRetry: View)
    ensures address == "" ==> afterSubmit == RequestForm
    ensures address != "" ==> afterSubmit == Confirmation(address)
    ensures afterRetry == RequestForm
  {
    var page := new ForgotPasswordPage();
    page.SetEmail(address);
    var _ := page.Submit();
    afterSubmit := page.CurrentView();
    page.TryAgain();
    afterRetry := page.CurrentView();
    assert page.email == address;
  }
}
