/** The login form: its validation, the sign-in callback and logout. */
module Login {
  import opened Wrappers
  import opened Text
  import opened Register

  const LoginFailed := "Failed to log in."

  /** The login guard chain: both fields filled in, and an "@" and a "." in the email. No length rule. */
  function LoginError(email: string, password: string): (r: Option<string>)
    ensures r == None <==> !AllWhitespace(email) && !AllWhitespace(password) && '@' in email && '.' in email
    ensures r == Some(FieldsMissing) <==> AllWhitespace(email) || AllWhitespace(password)
    ensures r == Some(EmailInvalid) <==>
              !AllWhitespace(email) && !AllWhitespace(password) && !('@' in email && '.' in email)
  {
    if AllWhitespace(email) || AllWhitespace(password) then Some(FieldsMissing)
    else if !('@' in email && '.' in email) then Some(EmailInvalid)
    else None
  }

  /** A form the registration chain accepts passes the login chain too, but not the other way round. */
  lemma LoginWeakerThanRegister(name: string, email: string, password: string)
    requires RegisterError(name, email, password) == None
    ensures LoginError(email, password) == None
    ensures LoginError("a@b.c", "x") == None && RegisterError("Ann", "a@b.c", "x") == Some(PasswordShort)
  {
    assert !IsWhitespace("a@b.c"[0]) && !IsWhitespace("x"[0]) && !IsWhitespace("Ann"[0]);
    assert "a@b.c"[1] == '@' && "a@b.c"[3] == '.';
  }

  class LoginViewModel {
    var email: string
    var password: string
    var errorMessage: string
    var isLoading: bool
    var isLoggedIn: bool

    /** Starts logged in when the identity provider already has a current user. */
    constructor (hasCurrentUser: bool)
      ensures email == "" && password == "" && errorMessage == "" && !isLoading
      ensures isLoggedIn == hasCurrentUser
    {
      email, password, errorMessage := "", "", "";
      isLoading := false;
      isLoggedIn := hasCurrentUser;
    }

    method Validate() returns (ok: bool)
      modifies this`errorMessage
      ensures ok <==> LoginError(email, password) == None
      ensures errorMessage == LoginError(email, password).GetOr("")
    {
      errorMessage := "";
      if AllWhitespace(email) || AllWhitespace(password) {
        errorMessage := FieldsMissing;
        return false;
      }
      if !('@' in email && '.' in email) {
        errorMessage := EmailInvalid;
        return false;
      }
      return true;
    }

    /** Validates and, when the form is valid, starts signing in; returns whether it started. */
    method Login() returns (started: bool)
      modifies this`errorMessage, this`isLoading
      ensures started <==> LoginError(email, password) == None
      ensures !started ==> errorMessage == LoginError(email, password).value && isLoading == old(isLoading)
      ensures started ==> errorMessage == "" && isLoading
    {
      started := Validate();
      if !started {
        return;
      }
      isLoading := true;
      errorMessage := "";
    }

    /** The sign-in callback: any failure shows the same fixed message, whatever the provider said. */
    method SignInCompleted(result: AuthResult)
      modifies this`errorMessage, this`isLoading, this`isLoggedIn
      ensures !isLoading
      ensures result.AuthFailed? ==> errorMessage == LoginFailed && isLoggedIn == old(isLoggedIn)
      ensures result.NoUser? ==> errorMessage == old(errorMessage) && isLoggedIn == old(isLoggedIn)
      ensures result.Authenticated? ==> errorMessage == old(errorMessage) && isLoggedIn
    {
      isLoading := false;
      if result.AuthFailed? {
        errorMessage := LoginFailed;
        return;
      }
      if result.Authenticated? {
        isLoggedIn := true;
      }
    }

    /** Signs out; `signOutError` is the provider's failure, if any. */
    method Logout(signOutError: Option<string>)
      modifies this`isLoggedIn, this`email, this`password, this`errorMessage
      ensures signOutError == None ==> !isLoggedIn && email == "" && password == "" && errorMessage == ""
      ensures signOutError != None ==>
                errorMessage == "Failed to logout: " + signOutError.value &&
                isLoggedIn == old(isLoggedIn) && email == old(email) && password == old(password)
    {
      if signOutError == None {
        isLoggedIn := false;
        email := "";
        password := "";
        errorMessage := "";
      } else {
        errorMessage := "Failed to logout: " + signOutError.value;
      }
    }
  }
}
