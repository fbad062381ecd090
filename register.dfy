/**
 * The sign-up page (src/pages/Register.jsx): the form fields, the two
 * visibility toggles and the submit handler with its password check.
 */
module Register {
  import opened Js
  import opened Records

  const PasswordsDiffer := "Passwords do not match"
  const AfterRegisterPath := "/dashboard"

  /** The five named inputs of the form. */
  datatype RegisterField = FirstName | LastName | Email | Password | ConfirmPassword

  /** The object handed to `register`; the confirmation is not part of it. */
  datatype RegisterRequest = RegisterRequest(fname: string, lname: string, email: string, password: string)

  /** The page's state. */
  class RegisterPage {
    var fname: string
    var lname: string
    var email: string
    var password: string
    var confirmPassword: string
    var showPassword: bool
    var showConfirmPassword: bool
    var isLoading: bool
    var error: string

    constructor ()
      ensures fname == "" && lname == "" && email == "" && password == "" && confirmPassword == ""
      ensures !showPassword && !showConfirmPassword && !isLoading && error == ""
    {
      fname, lname, email, password, confirmPassword := "", "", "", "", "";
      showPassword, showConfirmPassword := false, false;
      isLoading := false;
      error := "";
    }

    /** The submit button's `disabled`. */
    predicate SubmitDisabled()
      reads this
    {
      isLoading
    }

    /** `handleChange(e)`: the named field takes the new value, the others keep theirs. */
    method HandleChange(name: RegisterField, value: string)
      modifies this`fname, this`lname, this`email, this`password, this`confirmPassword
      ensures fname == (if name == FirstName then value else old(fname))
      ensures lname == (if name == LastName then value else old(lname))
      ensures email == (if name == Email then value else old(email))
      ensures password == (if name == Password then value else old(password))
      ensures confirmPassword == (if name == ConfirmPassword then value else old(confirmPassword))
    {
      match name {
        case FirstName => fname := value;
        case LastName => lname := value;
        case Email => email := value;
        case Password => password := value;
        case ConfirmPassword => confirmPassword := value;
      }
    }

    /** The password field's eye button. */
    method TogglePassword()
      modifies this`showPassword
      ensures showPassword == !old(showPassword)
    {
      showPassword := !showPassword;
    }

    /** The confirmation field's eye button. */
    method ToggleConfirmPassword()
      modifies this`showConfirmPassword
      ensures showConfirmPassword == !old(showConfirmPassword)
    {
      showConfirmPassword := !showConfirmPassword;
    }

    /**
     * `handleSubmit(e)`, with `result` what `register` resolved to (used only
     * when the request is made). Returns the request sent and the navigation made.
     */
    method HandleSubmit(result: ApiResult) returns (request: Option<RegisterRequest>, nav: Option<Navigation>)
      modifies this`isLoading, this`error
      ensures !SubmitDisabled()
      ensures old(password) != old(confirmPassword) ==>
        request == None && nav == None && error == PasswordsDiffer
      ensures old(password) == old(confirmPassword) ==>
        request == Some(RegisterRequest(old(fname), old(lname), old(email), old(password)))
      ensures old(password) == old(confirmPassword) && !result.success ==>
        nav == None && error == ErrorText(result.message)
      ensures old(password) == old(confirmPassword) && result.success ==>
        nav == Some(Go(AfterRegisterPath)) && error == ""
    {
      error := "";
      isLoading := true;
      request, nav := None, None;
      if password != confirmPassword {
        error := PasswordsDiffer;
      } else {
        request := Some(RegisterRequest(fname, lname, email, password));
        if !result.success {
          error := ErrorText(result.message);
        } else {
          nav := Some(Go(AfterRegisterPath));
        }
      }
      isLoading := false;
    }
  }
}
