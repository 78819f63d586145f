/** The registration form: its validation and the account-creation flow. */
module Register {
  import opened Wrappers
  import opened Text

  const FieldsMissing := "Please fill in all fields"
  const EmailInvalid := "Invalid email format"
  const PasswordShort := "Password must be at least 6 characters"

  /** What the identity provider reports when account creation completes. */
  datatype AuthResult = AuthFailed(description: string) | NoUser | Authenticated(uid: string, email: Option<string>)

  /** The profile document saved for a new account. `createdAt` is an opaque timestamp. */
  datatype UserProfile = UserProfile(id: string, name: string, email: string, createdAt: int)

  /** The profile of a signed-up account: its id, the form's name and the account's email, empty when it has none. */
  function ProfileFor(uid: string, accountEmail: Option<string>, name: string, createdAt: int): (p: UserProfile)
    ensures p.id == uid && p.name == name && p.createdAt == createdAt
    ensures accountEmail == None ==> p.email == ""
    ensures accountEmail != None ==> p.email == accountEmail.value
  {
    UserProfile(uid, name, accountEmail.GetOr(""), createdAt)
  }

  /**
   * The registration guard chain. A field is missing when it is empty after
   * trimming; the password length is counted untrimmed.
   */
  function RegisterError(name: string, email: string, password: string): (r: Option<string>)
    ensures r == None <==>
              !AllWhitespace(name) && !AllWhitespace(email) && !AllWhitespace(password) &&
              '@' in email && '.' in email && |password| >= 6
    ensures r == Some(FieldsMissing) <==> AllWhitespace(name) || AllWhitespace(email) || AllWhitespace(password)
  {
    if AllWhitespace(name) || AllWhitespace(email) || AllWhitespace(password) then Some(FieldsMissing)
    else if !('@' in email && '.' in email) then Some(EmailInvalid)
    else if |password| < 6 then Some(PasswordShort)
    else None
  }

  /** Which message the chain reports once the fields are filled in. */
  lemma RegisterErrorOrder(name: string, email: string, password: string)
    requires !AllWhitespace(name) && !AllWhitespace(email) && !AllWhitespace(password)
    ensures RegisterError(name, email, password) == Some(EmailInvalid) <==> !('@' in email && '.' in email)
    ensures RegisterError(name, email, password) == Some(PasswordShort) <==>
              '@' in email && '.' in email && |password| < 6
  {
  }

  /** Surrounding spaces count towards the six characters: "  abc " is long enough. */
  lemma PasswordLengthIsUntrimmed()
    ensures RegisterError("Ann", "a@b.c", "  abc ") == None
    ensures RegisterError("Ann", "a@b.c", "abc") == Some(PasswordShort)
  {
    assert !IsWhitespace("Ann"[0]) && !IsWhitespace("a@b.c"[0]);
    assert !IsWhitespace("  abc "[2]) && !IsWhitespace("abc"[0]);
    assert "a@b.c"[1] == '@' && "a@b.c"[3] == '.';
  }

  class RegisterViewModel {
    var name: string
    var email: string
    var password: string
    var errorMessage: string
    var isLoading: bool

    constructor ()
      ensures name == "" && email == "" && password == "" && errorMessage == "" && !isLoading
    {
      name, email, password := "", "", "";
      errorMessage, isLoading := "", false;
    }

    method Validate() returns (ok: bool)
      modifies this`errorMessage
      ensures ok <==> RegisterError(name, email, password) == None
      ensures errorMessage == RegisterError(name, email, password).GetOr("")
    {
      errorMessage := "";
      if AllWhitespace(name) || AllWhitespace(email) || AllWhitespace(password) {
        errorMessage := FieldsMissing;
        return false;
      }
      if !('@' in email && '.' in email) {
        errorMessage := EmailInvalid;
        return false;
      }
      if |password| < 6 {
        errorMessage := PasswordShort;
        return false;
      }
      return true;
    }

    /** Validates and, when the form is valid, starts account creation; returns whether it started. */
    method Register() returns (started: bool)
      modifies this`errorMessage, this`isLoading
      ensures started <==> RegisterError(name, email, password) == None
      ensures !started ==> errorMessage == RegisterError(name, email, password).value && isLoading == old(isLoading)
      ensures started ==> errorMessage == "" && isLoading
    {
      started := Validate();
      if !started {
        return;
      }
      isLoading := true;
      errorMessage := "";
    }

    /**
     * Account creation completed with `result`; on success the profile is
     * saved, failing with `saveError` if the store reports one. `createdAt`
     * is the current time. Returns the profile saved, if any.
     */
    method CreateUserCompleted(result: AuthResult, createdAt: int, saveError: Option<string>)
      returns (saved: Option<UserProfile>)
      modifies this`errorMessage, this`isLoading
      ensures !isLoading
      ensures result.AuthFailed? ==> saved == None && errorMessage == result.description
      ensures result.NoUser? ==> saved == None && errorMessage == "Failed to create user"
      ensures result.Authenticated? && saveError == None ==> saved == Some(ProfileFor(result.uid, result.email, name, createdAt)) && errorMessage == old(errorMessage)
      ensures result.Authenticated? && saveError != None ==>
                saved == None && errorMessage == "Failed to save user data: " + saveError.value
    {
      isLoading := false;
      match result {
        case AuthFailed(description) =>
          errorMessage := description;
          saved := None;
        case NoUser =>
          errorMessage := "Failed to create user";
          saved := None;
        case Authenticated(uid, accountEmail) =>
          if saveError == None {
            saved := Some(ProfileFor(uid, accountEmail, name, createdAt));
          } else {
            errorMessage := "Failed to save user data: " + saveError.value;
            saved := None;
          }
      }
    }
  }
}
