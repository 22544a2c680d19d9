/** The login form: a fixed pair of literals, checked on submit. */
module LoginPage {

  const InvalidCredentialsMessage := "Invalid username or password."

  /** The one accepted pair: username "user" and password "password", compared exactly. */
  predicate IsValidLogin(username: string, password: string) {
    username == "user" && password == "password"
  }

  /** The form's state: its two inputs and the error line. */
  class Form {
    var username: string
    var password: string
    var error: string

    constructor ()
      ensures username == "" && password == "" && error == ""
    {
      username, password, error := "", "", "";
    }

    /** The typed inputs (the `onChange` handlers). */
    method Type(newUsername: string, newPassword: string)
      modifies this`username, this`password
      ensures username == newUsername && password == newPassword
    {
      username, password := newUsername, newPassword;
    }

    /** `handleSubmit`: clears the error, then either reports success (the caller runs
        `onLoginSuccess`) or sets the error line. The inputs are never touched. */
    method HandleSubmit() returns (loggedIn: bool)
      modifies this`error
      ensures loggedIn <==> IsValidLogin(username, password)
      ensures error == if loggedIn then "" else InvalidCredentialsMessage
      ensures username == old(username) && password == old(password)
    {
      error := "";
      if username == "user" && password == "password" {
        loggedIn := true;
      } else {
        error := InvalidCredentialsMessage;
        loggedIn := false;
      }
    }
  }
}
