/** The account-creation form (`SignUpView`): its two guards and the account request they let through. */
module SignUp {
  import opened Wrappers

  const FillAllFields := "Please fill in all fields."
  const PasswordMismatch := "Passwords do not match."

  /** What `createUser(withEmail:password:)` is asked for. */
  datatype Credentials = Credentials(email: string, password: string)

  /**
   * The form's verdict: an empty email or password is reported first, and
   * only a filled-in form is compared against its confirmation.
   */
  function SignUpError(email: string, password: string, confirm: string): (r: Option<string>)
    ensures r == Some(FillAllFields) <==> email == [] || password == []
    ensures r == Some(PasswordMismatch) <==> email != [] && password != [] && password != confirm
    ensures r.None? <==> email != [] && password != [] && password == confirm
  {
    if email == [] || password == [] then Some(FillAllFields)
    else if password != confirm then Some(PasswordMismatch)
    else None
  }

  class SignUpForm {
    var email: string
    var password: string
    var confirmPassword: string
    var errorMessage: Option<string>
    var isLoading: bool
    var showSuccessAlert: bool

    constructor ()
      ensures email == "" && password == "" && confirmPassword == ""
      ensures errorMessage == None && !isLoading && !showSuccessAlert
    {
      email, password, confirmPassword := "", "", "";
      errorMessage, isLoading, showSuccessAlert := None, false, false;
    }

    /**
     * `signUp()`: clears the old error, then either reports why the form is
     * refused or starts loading and asks for the account.
     */
    method SignUp() returns (request: Option<Credentials>)
      modifies this`errorMessage, this`isLoading
      ensures errorMessage == SignUpError(email, password, confirmPassword)
      ensures request.Some? <==> errorMessage.None?
      ensures request.Some? ==> request.value == Credentials(email, password) && isLoading
      ensures request.None? ==> isLoading == old(isLoading)
    {
      errorMessage := None;
      if email == [] || password == [] {
        errorMessage := Some(FillAllFields);
        return None;
      }
      if password != confirmPassword {
        errorMessage := Some(PasswordMismatch);
        return None;
      }
      isLoading := true;
      request := Some(Credentials(email, password));
    }

    /** The account request's completion: its error description or the success alert. */
    method CompleteSignUp(error: Option<string>)
      modifies this`errorMessage, this`isLoading, this`showSuccessAlert
      ensures !isLoading
      ensures error.Some? ==> errorMessage == error && showSuccessAlert == old(showSuccessAlert)
      ensures error.None? ==> errorMessage == old(errorMessage) && showSuccessAlert
    {
      isLoading := false;
      if error.Some? {
        errorMessage := error;
      } else {
        showSuccessAlert := true;
      }
    }
  }

  /**
   * A submission from a fresh form ends in exactly one of: an error message
   * (the form's own or the service's) or the success alert.
   */
  method SubmitFreshForm(email: string, password: string, confirm: string, outcome: Option<string>)
    returns (form: SignUpForm)
    ensures fresh(form) && !form.isLoading
    ensures SignUpError(email, password, confirm).Some? ==>
      form.errorMessage == SignUpError(email, password, confirm) && !form.showSuccessAlert
    ensures SignUpError(email, password, confirm).None? ==>
      form.errorMessage == outcome && form.showSuccessAlert == outcome.None?
  {
    form := new SignUpForm();
    form.email, form.password, form.confirmPassword := email, password, confirm;
    var request := form.SignUp();
    if request.Some? {
      form.CompleteSignUp(outcome);
    }
  }
}
