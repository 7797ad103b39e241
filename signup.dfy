/**
 * `src/pages/Signup.jsx`: `handleSubmit` checks the form in a fixed order,
 * stops at the first failed check with its message, and only then calls
 * `signup` and reports its result. What `signup` returns is a parameter.
 */
module Signup {
  import opened Wrappers

  datatype Form = Form(name: string, email: string, password: string, confirmPassword: string)

  /** The three checks, in the order they run. */
  datatype FormError = MissingField | PasswordMismatch | PasswordTooShort

  function Message(e: FormError): string {
    match e
    case MissingField => "Please fill in all fields"
    case PasswordMismatch => "Passwords do not match"
    case PasswordTooShort => "Password must be at least 6 characters"
  }

  const MinPasswordLength := 6

  /** The early-return chain: the first check that fails, or `None` when the form passes. */
  function Validate(f: Form): Option<FormError> {
    if f.name == "" || f.email == "" || f.password == "" || f.confirmPassword == "" then Some(MissingField)
    else if f.password != f.confirmPassword then Some(PasswordMismatch)
    else if |f.password| < MinPasswordLength then Some(PasswordTooShort)
    else None
  }

  /**
   * Each message is reported exactly when its check is the first to fail:
   * an empty field first, then differing passwords, then a short password;
   * the form passes exactly when no check fails.
   */
  lemma ValidateOrder(f: Form)
    ensures var empty := f.name == "" || f.email == "" || f.password == "" || f.confirmPassword == "";
      (Validate(f) == Some(MissingField) <==> empty)
      && (Validate(f) == Some(PasswordMismatch) <==> !empty && f.password != f.confirmPassword)
      && (Validate(f) == Some(PasswordTooShort) <==> !empty && f.password == f.confirmPassword && |f.password| < MinPasswordLength)
      && (Validate(f) == None <==> !empty && f.password == f.confirmPassword && |f.password| >= MinPasswordLength)
  {
  }

  /** A form that passes has fields filled, matching passwords, and at least six characters of password. */
  lemma PassingForm(f: Form)
    requires Validate(f) == None
    ensures f.name != "" && f.email != "" && f.password == f.confirmPassword && |f.password| >= 6
  {
  }

  /** What the awaited `signup` call does: `{ success: true }`, `{ success: false, error }` ("" when absent), or a throw. */
  datatype SignupResult = Succeeded | Failed(error: string) | Threw(message: string)

  /** The error the page shows for a failed call: `result.error || 'Failed to create account'`. */
  function FailureMessage(r: SignupResult): string {
    match r
    case Succeeded => ""
    case Failed(e) => if e != "" then e else "Failed to create account"
    case Threw(m) => "Failed to create account: " + m
  }

  /** The page state `handleSubmit` writes, and where it navigates. */
  class SignupPage {
    var error: string
    var loading: bool
    var navigatedTo: Option<string>

    constructor()
      ensures error == "" && !loading && navigatedTo == None
    {
      error := "";
      loading := false;
      navigatedTo := None;
    }

    /**
     * `handleSubmit`: a failed check sets its message and `signup` is not
     * called; otherwise `signup(name, email, password)` is called with
     * outcome `result`, a success navigates to the dashboard, a failure
     * shows its message, and loading ends either way.
     */
    method HandleSubmit(f: Form, result: SignupResult) returns (called: bool)
      modifies this
      ensures called <==> Validate(f) == None
      ensures Validate(f).Some? ==>
        error == Message(Validate(f).value) && loading == old(loading) && navigatedTo == old(navigatedTo)
      ensures called ==> !loading
      ensures called && result.Succeeded? ==> error == "" && navigatedTo == Some("/dashboard")
      ensures called && !result.Succeeded? ==> error == FailureMessage(result) && navigatedTo == old(navigatedTo)
    {
      if f.name == "" || f.email == "" || f.password == "" || f.confirmPassword == "" {
        error := Message(MissingField);
        return false;
      }
      if f.password != f.confirmPassword {
        error := Message(PasswordMismatch);
        return false;
      }
      if |f.password| < MinPasswordLength {
        error := Message(PasswordTooShort);
        return false;
      }
      error := "";
      loading := true;
      called := true;
      match result {
        case Succeeded =>
          navigatedTo := Some("/dashboard");
        case Failed(e) =>
          error := if e != "" then e else "Failed to create account";
        case Threw(m) =>
          error := "Failed to create account: " + m;
      }
      loading := false;
    }
  }

  /** A failed call always shows a message. */
  lemma FailureMessageNonEmpty(r: SignupResult)
    requires !r.Succeeded?
    ensures FailureMessage(r) != ""
    ensures r.Failed? && r.error != "" ==> FailureMessage(r) == r.error
  {
    if r.Threw? {
      assert |FailureMessage(r)| >= 1;
    }
  }
}
