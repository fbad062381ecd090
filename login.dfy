/**
 * The sign-in page (src/pages/Login.jsx): the form fields, the password
 * visibility toggle and the submit handler with its redirect choice.
 */
module Login {
  import opened Js
  import opened Records

  const DefaultLanding := "/dashboard"

  /** The two named inputs of the form. */
  datatype LoginField = Email | Password

  /** `result.redirectTo || location.state?.from?.pathname || "/dashboard"`. */
  function RedirectPath(redirectTo: Field, fromPath: Field): (r: string)
    ensures r != ""
    ensures Truthy(redirectTo) ==> r == redirectTo.value
    ensures !Truthy(redirectTo) && Truthy(fromPath) ==> r == fromPath.value
    ensures !Truthy(redirectTo) && !Truthy(fromPath) ==> r == DefaultLanding
  {
    OrElse(redirectTo, OrElse(fromPath, DefaultLanding))
  }

  /** A server-chosen destination overrides the page the visitor came from. */
  lemma ServerRedirectWins(redirectTo: Field, from1: Field, from2: Field)
    requires Truthy(redirectTo)
    ensures RedirectPath(redirectTo, from1) == RedirectPath(redirectTo, from2)
  {
  }

  /** The page's state. */
  class LoginPage {
    var email: string
    var password: string
    var showPassword: bool
    var isLoading: bool
    var error: string

    constructor ()
      ensures email == "" && password == "" && !showPassword && !isLoading && error == ""
    {
      email := "";
      password := "";
      showPassword := false;
      isLoading := false;
      error := "";
    }

    /** The submit button's `disabled`. */
    predicate SubmitDisabled()
      reads this
    {
      isLoading
    }

    /** `handleChange(e)`: the named field takes the new value, the other keeps its own. */
    method HandleChange(name: LoginField, value: string)
      modifies this`email, this`password
      ensures name == Email ==> email == value && password == old(password)
      ensures name == Password ==> password == value && email == old(email)
    {
      match name {
        case Email => email := value;
        case Password => password := value;
      }
    }

    /** The eye button's `onClick`. */
    method TogglePassword()
      modifies this`showPassword
      ensures showPassword == !old(showPassword)
    {
      showPassword := !showPassword;
    }

    /**
     * `handleSubmit(e)`, with `result` what `login` resolved to and
     * `fromPath` the pathname in the router's location state, if any.
     * Returns the credentials sent and the navigation made.
     */
    method HandleSubmit(result: ApiResult, fromPath: Field) returns (sent: (string, string), nav: Option<Navigation>)
      modifies this`isLoading, this`error
      ensures sent == (old(email), old(password))
      ensures !SubmitDisabled()
      ensures !result.success ==> nav == None && error == ErrorText(result.message)
      ensures result.success ==> nav == Some(Navigation(RedirectPath(result.redirectTo, fromPath), true)) && error == ""
    {
      error := "";
      isLoading := true;
      sent := (email, password);
      if !result.success {
        error := ErrorText(result.message);
        nav := None;
      } else {
        nav := Some(Navigation(RedirectPath(result.redirectTo, fromPath), true));
      }
      isLoading := false;
    }
  }
}
