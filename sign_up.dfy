/**
 * The sign-up page of app/signup/page.tsx: `handleSignUp` either records an
 * error message or navigates to the workspace.
 */
module SignUp {

  const PasswordMismatchError: string := "Passwords do not match"
  const MissingFieldsError: string := "Please fill in all fields"
  const WorkspacePath: string := "/workspace"

  /** What one submission does: set the error text, or push a route. */
  datatype Outcome = ShowError(message: string) | Navigate(path: string)

  /** The decision of `handleSignUp`; empty strings are falsy. */
  function Decide(email: string, password: string, confirmPassword: string): Outcome
  {
    if password != confirmPassword then ShowError(PasswordMismatchError)
    else if email != "" && password != "" then Navigate(WorkspacePath)
    else ShowError(MissingFieldsError)
  }

  /** The three outcomes and exactly the inputs that lead to each. */
  lemma DecideOutcomes(email: string, password: string, confirmPassword: string)
    ensures var o := Decide(email, password, confirmPassword);
            && (o == ShowError(PasswordMismatchError) <==> password != confirmPassword)
            && (o == ShowError(MissingFieldsError) <==>
                  password == confirmPassword && (email == "" || password == ""))
            && (o == Navigate(WorkspacePath) <==>
                  password == confirmPassword && email != "" && password != "")
            && (o.Navigate? ==> o.path == WorkspacePath)
  {
  }

  /** The mismatch is reported first, even when a field is also empty. */
  lemma MismatchReportedFirst(email: string, password: string, confirmPassword: string)
    requires password != confirmPassword
    ensures Decide(email, password, confirmPassword) == ShowError(PasswordMismatchError)
    ensures Decide("", password, confirmPassword) == ShowError(PasswordMismatchError)
  {
  }

  /** The form fields, the error line and the router's history. */
  class SignUpPage {
    var email: string
    var password: string
    var confirmPassword: string
    var error: string
    var visited: seq<string>

    constructor ()
      ensures email == "" && password == "" && confirmPassword == "" && error == ""
      ensures visited == []
    {
      email, password, confirmPassword, error := "", "", "", "";
      visited := [];
    }

    method SetEmail(value: string)
      modifies this`email
      ensures email == value
    {
      email := value;
    }

    method SetPassword(value: string)
      modifies this`password
      ensures password == value
    {
      password := value;
    }

    method SetConfirmPassword(value: string)
      modifies this`confirmPassword
      ensures confirmPassword == value
    {
      confirmPassword := value;
    }

    /**
     * `handleSignUp`: an error replaces the error text and nothing is pushed;
     * a navigation pushes "/workspace" and leaves the error text as it was.
     * No submission does both.
     */
    method HandleSignUp()
      modifies this`error, this`visited
      ensures Decide(email, password, confirmPassword).ShowError? ==>
                error == Decide(email, password, confirmPassword).message && visited == old(visited)
      ensures Decide(email, password, confirmPassword).Navigate? ==>
                error == old(error) && visited == old(visited) + [WorkspacePath]
    {
      if password != confirmPassword {
        error := PasswordMismatchError;
        return;
      }
      if email != "" && password != "" {
        visited := visited + [WorkspacePath];
      } else {
        error := MissingFieldsError;
      }
    }
  }
}
