/** The sign-up form: three inputs checked in a fixed order; nothing is stored. */
module SignUpPage {

  const MismatchMessage := "Passwords do not match."
  const TooShortMessage := "Username must be at least 3 characters and password at least 6 characters."
  const SuccessMessage := "Account created successfully! You can now log in."

  /** Which branch of `handleSubmit` a submission takes. */
  datatype Verdict = PasswordsDiffer | TooShort | Accepted

  /** The checks, in order: the passwords must match; then the username needs at least 3
      characters and the password at least 6. */
  function Check(username: string, password: string, confirmPassword: string): (v: Verdict)
    ensures v == PasswordsDiffer <==> password != confirmPassword
    ensures v == Accepted <==> password == confirmPassword && |username| >= 3 && |password| >= 6
  {
    if password != confirmPassword then PasswordsDiffer
    else if |username| < 3 || |password| < 6 then TooShort
    else Accepted
  }

  function ErrorText(v: Verdict): string {
    match v
    case PasswordsDiffer => MismatchMessage
    case TooShort => TooShortMessage
    case Accepted => ""
  }

  /** The mismatch check comes first: a mismatched pair is reported as a mismatch however
      short the inputs are. */
  lemma {:induction false} MismatchTakesPrecedence(username: string, password: string, confirmPassword: string)
    requires password != confirmPassword
    ensures ErrorText(Check(username, password, confirmPassword)) == MismatchMessage
  {
  }

  /** The form's state: the three inputs and the two message lines. */
  class Form {
    var username: string
    var password: string
    var confirmPassword: string
    var error: string
    var successMessage: string

    constructor ()
      ensures username == "" && password == "" && confirmPassword == ""
      ensures error == "" && successMessage == ""
    {
      username, password, confirmPassword := "", "", "";
      error, successMessage := "", "";
    }

    /** The typed inputs (the `onChange` handlers). */
    method Type(newUsername: string, newPassword: string, newConfirmPassword: string)
      modifies this`username, this`password, this`confirmPassword
      ensures username == newUsername && password == newPassword && confirmPassword == newConfirmPassword
    {
      username, password, confirmPassword := newUsername, newPassword, newConfirmPassword;
    }

    /** `handleSubmit`: clears both message lines, then sets the error of the first failing
        check, or on success sets the success line, empties the three inputs and asks for
        `onSignUpSuccess` to run later (`scheduled`). Exactly one line ends up non-empty. */
    method HandleSubmit() returns (scheduled: bool)
      modifies this
      ensures var v := Check(old(username), old(password), old(confirmPassword));
        && scheduled == (v == Accepted)
        && error == ErrorText(v)
        && successMessage == (if v == Accepted then SuccessMessage else "")
        && (if v == Accepted
            then username == "" && password == "" && confirmPassword == ""
            else username == old(username) && password == old(password) && confirmPassword == old(confirmPassword))
      ensures (error != "") != (successMessage != "")
    {
      error := "";
      successMessage := "";
      scheduled := false;

      if password != confirmPassword {
        error := MismatchMessage;
        return;
      }

      if |username| < 3 || |password| < 6 {
        error := TooShortMessage;
        return;
      }

      successMessage := SuccessMessage;
      username := "";
      password := "";
      confirmPassword := "";
      scheduled := true;
    }
  }
}
