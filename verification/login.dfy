/**
 * The pharmacy login page (src/pages/Login.jsx): one hard-coded account,
 * compared after trimming both inputs; a successful login is remembered in
 * session storage.
 */
module Login {
  import opened Wrappers
  import opened Text
  import opened Browser

  const PharmacyEmail := "mediconnect@pharmacy.lk"
  const PharmacyPassword := "mediconnect"
  const InvalidCredentials := "Invalid email or password"
  const LoginFailed := "Failed to log in. Please try again."
  const LoggedInKey := "isLoggedIn"
  const DashboardPath := "/pharmacy-dashboard"

  /** Both trimmed inputs equal the pharmacy account, character for character. */
  predicate CredentialsMatch(email: string, password: string) {
    Trim(email) == PharmacyEmail && Trim(password) == PharmacyPassword
  }

  /** Whitespace typed around either input never changes the verdict. */
  lemma PaddingDoesNotMatter(email: string, password: string, e1: string, e2: string, p1: string, p2: string)
    requires AllWhitespace(e1) && AllWhitespace(e2) && AllWhitespace(p1) && AllWhitespace(p2)
    ensures CredentialsMatch(e1 + email + e2, p1 + password + p2) <==> CredentialsMatch(email, password)
  {
    TrimIgnoresPadding(e1, email, e2);
    TrimIgnoresPadding(p1, password, p2);
  }

  lemma AccountIsTrimmed()
    ensures Trim(PharmacyEmail) == PharmacyEmail && Trim(PharmacyPassword) == PharmacyPassword
  {
    var e, p := PharmacyEmail, PharmacyPassword;
    assert e[0] == 'm' && e[|e| - 1] == 'k';
    assert p[0] == 'm' && p[|p| - 1] == 't';
    TrimOfTrimmed(e);
    TrimOfTrimmed(p);
  }

  /** The pharmacy account itself is accepted. */
  lemma AccountAccepted()
    ensures CredentialsMatch(PharmacyEmail, PharmacyPassword)
  {
    AccountIsTrimmed();
  }

  /** So is the account typed with stray whitespace around either input. */
  lemma PaddedAccountAccepted(e1: string, e2: string, p1: string, p2: string)
    requires AllWhitespace(e1) && AllWhitespace(e2) && AllWhitespace(p1) && AllWhitespace(p2)
    ensures CredentialsMatch(e1 + PharmacyEmail + e2, p1 + PharmacyPassword + p2)
  {
    AccountAccepted();
    PaddingDoesNotMatter(PharmacyEmail, PharmacyPassword, e1, e2, p1, p2);
  }

  /** The comparison is case-sensitive: any other spelling of the email that lower-cases to it is refused. */
  lemma EmailCaseVariantRefused(email: string, password: string)
    requires email != PharmacyEmail && ToLower(email) == PharmacyEmail
    ensures !CredentialsMatch(email, password)
  {
    assert |email| == |PharmacyEmail|;
    assert LowerChar(email[0]) == 'm';
    assert LowerChar(email[|email| - 1]) == 'k';
    TrimOfTrimmed(email);
  }

  class LoginPage {
    var email: string
    var password: string
    var error: Option<string>

    constructor ()
      ensures email == "" && password == "" && error == None
    {
      email, password, error := "", "", None;
    }

    method SetEmail(value: string)
      modifies this`email
      ensures email == value
    {
      email := value;
    }

    method SetPassword(value: string)
      modifies this`password
      ensures password == value
    {
      password := value;
    }

    /**
     * `handleLogin`. `sessionWritable` is false when `sessionStorage.setItem`
     * throws, which the catch block reports. It returns the route navigated to.
     */
    method HandleLogin(session: Storage, sessionWritable: bool) returns (navigateTo: Option<string>)
      modifies this`error, session
      ensures CredentialsMatch(email, password) && sessionWritable ==>
        && session.items == old(session.items)[LoggedInKey := "true"]
        && navigateTo == Some(DashboardPath)
        && error == old(error)
      ensures CredentialsMatch(email, password) && !sessionWritable ==>
        && session.items == old(session.items)
        && navigateTo == None
        && error == Some(LoginFailed)
      ensures !CredentialsMatch(email, password) ==>
        && session.items == old(session.items)
        && navigateTo == None
        && error == Some(InvalidCredentials)
    {
      var trimmedEmail := Trim(email);
      var trimmedPassword := Trim(password);
      if trimmedEmail == PharmacyEmail && trimmedPassword == PharmacyPassword {
        if !sessionWritable {
          error := Some(LoginFailed);
          return None;
        }
        session.SetItem(LoggedInKey, "true");
        navigateTo := Some(DashboardPath);
      } else {
        error := Some(InvalidCredentials);
        navigateTo := None;
      }
    }
  }

  /** A user who types the account with stray whitespace is logged in and sent to the dashboard. */
  method LoginWithPaddedInput(session: Storage, e1: string, e2: string, p1: string, p2: string)
    returns (navigateTo: Option<string>)
    requires AllWhitespace(e1) && AllWhitespace(e2) && AllWhitespace(p1) && AllWhitespace(p2)
    modifies session
    ensures navigateTo == Some(DashboardPath)
    ensures session.GetItem(LoggedInKey) == Some("true")
  {
    var email, password := e1 + PharmacyEmail + e2, p1 + PharmacyPassword + p2;
    PaddedAccountAccepted(e1, e2, p1, p2);
    var page := new LoginPage();
    page.SetEmail(email);
    page.SetPassword(password);
    assert CredentialsMatch(page.email, page.password);
    navigateTo := page.HandleLogin(session, true);
  }
}
