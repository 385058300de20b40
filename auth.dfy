/** `AuthService`: the email and username format checks, the refresh-token
    checks, and the order of checks in sign-up, sign-out and withdrawal over
    an account store and a refresh-token store. JWT handling, password
    hashing and token hashing are the functions of a `Security` value. */
module Auth {
  import opened Wrappers
  import opened Text

  predicate AsciiLetter(c: char) {
    ('a' <= c <= 'z') || ('A' <= c <= 'Z')
  }

  predicate AsciiDigit(c: char) {
    '0' <= c <= '9'
  }

  /** `[a-zA-Z0-9._%+-]`. */
  predicate LocalChar(c: char) {
    AsciiLetter(c) || AsciiDigit(c) || c == '.' || c == '_' || c == '%' || c == '+' || c == '-'
  }

  /** `[a-zA-Z0-9.-]`. */
  predicate DomainChar(c: char) {
    AsciiLetter(c) || AsciiDigit(c) || c == '.' || c == '-'
  }

  /** `s` splits at `@` position `i` and `.` position `j` as
      `local@domain.tld`: a non-empty local part, a non-empty domain part and
      a top-level part of at least two ASCII letters. */
  predicate EmailAt(s: string, i: int, j: int) {
    && 0 < i && i + 1 < j && j + 2 < |s|
    && s[i] == '@' && s[j] == '.'
    && (forall k :: 0 <= k < i ==> LocalChar(s[k]))
    && (forall k :: i < k < j ==> DomainChar(s[k]))
    && (forall k :: j < k < |s| ==> AsciiLetter(s[k]))
  }

  /** `EMAIL_PATTERN.matcher(s).matches()`: the whole text has that shape. */
  ghost predicate EmailPattern(s: string) {
    exists i, j :: EmailAt(s, i, j)
  }

  /** The first position of `c` in `s`. */
  function FirstIndex(s: string, c: char): (r: Option<nat>)
    ensures r.Some? ==> r.value < |s| && s[r.value] == c && forall k :: 0 <= k < r.value ==> s[k] != c
    ensures r.None? ==> forall k :: 0 <= k < |s| ==> s[k] != c
  {
    if s == [] then None
    else if s[0] == c then Some(0)
    else match FirstIndex(s[1..], c)
      case None => None
      case Some(k) => Some(k + 1)
  }

  /** The last position of `c` in `s`. */
  function LastIndex(s: string, c: char): (r: Option<nat>)
    ensures r.Some? ==> r.value < |s| && s[r.value] == c && forall k :: r.value < k < |s| ==> s[k] != c
    ensures r.None? ==> forall k :: 0 <= k < |s| ==> s[k] != c
  {
    if s == [] then None
    else if s[|s| - 1] == c then Some(|s| - 1)
    else LastIndex(s[..|s| - 1], c)
  }

  /** The matcher: the local part ends at the first `@`, since neither part
      may hold one, and the top-level part starts after the last `.`, since
      it may hold none. */
  function MatchesEmail(s: string): bool {
    match (FirstIndex(s, '@'), LastIndex(s, '.'))
    case (Some(i), Some(j)) => EmailAt(s, i, j)
    case _ => false
  }

  /** The matcher accepts exactly the texts of the pattern. */
  lemma {:induction false} MatchesEmailCorrect(s: string)
    ensures MatchesEmail(s) <==> EmailPattern(s)
  {
    if MatchesEmail(s) {
      assert EmailAt(s, FirstIndex(s, '@').value, LastIndex(s, '.').value);
    }
    if EmailPattern(s) {
      var i, j :| EmailAt(s, i, j);
      var fi := FirstIndex(s, '@');
      var lj := LastIndex(s, '.');
      assert LocalChar(s[i - 1]) && AsciiLetter(s[|s| - 1]);
      assert fi == Some(i);
      assert lj == Some(j);
    }
  }

  /** No text of the email pattern is blank. */
  lemma {:induction false} EmailPatternNotBlank(s: string)
    ensures EmailPattern(s) ==> !IsBlank(s)
  {
    if EmailPattern(s) {
      var i, j :| EmailAt(s, i, j);
      assert !IsWhitespace(s[i]);
    }
  }

  /** `validateEmail`: a missing, blank or ill-formed email fails with
      `AUTH_INVALID_EMAIL_FORMAT`. */
  function ValidateEmail(email: Option<string>): (r: Outcome<ErrorCode>)
    ensures r.Pass? <==> email.Some? && EmailPattern(email.value)
    ensures r.Fail? ==> r.error == AuthInvalidEmailFormat
  {
    if email.None? then Fail(AuthInvalidEmailFormat)
    else
      MatchesEmailCorrect(email.value);
      EmailPatternNotBlank(email.value);
      if IsBlank(email.value) || !MatchesEmail(email.value) then Fail(AuthInvalidEmailFormat)
      else Pass
  }

  /** `[가-힣a-zA-Z0-9._]`. */
  predicate UsernameChar(c: char) {
    ('가' <= c <= '힣') || AsciiLetter(c) || AsciiDigit(c) || c == '.' || c == '_'
  }

  /** `USERNAME_PATTERN.matcher(s).matches()`: 2 to 12 characters of the class. */
  predicate UsernamePattern(s: string) {
    2 <= |s| <= 12 && forall k :: 0 <= k < |s| ==> UsernameChar(s[k])
  }

  /** `validateUsername`: a missing, blank or ill-formed username fails with
      `AUTH_INVALID_USERNAME_FORMAT`. */
  function ValidateUsername(username: Option<string>): (r: Outcome<ErrorCode>)
    ensures r.Pass? <==> username.Some? && UsernamePattern(username.value)
    ensures r.Fail? ==> r.error == AuthInvalidUsernameFormat
  {
    if username.None? then Fail(AuthInvalidUsernameFormat)
    else
      UsernamePatternNotBlank(username.value);
      if IsBlank(username.value) || !UsernamePattern(username.value) then Fail(AuthInvalidUsernameFormat)
      else Pass
  }

  /** No text of the username pattern is blank. */
  lemma {:induction false} UsernamePatternNotBlank(s: string)
    ensures UsernamePattern(s) ==> !IsBlank(s)
  {
    if UsernamePattern(s) {
      assert UsernameChar(s[0]);
      assert !IsWhitespace(s[0]);
    }
  }

  /** `checkRefreshTokenPresence`. */
  function CheckRefreshTokenPresence(token: Option<string>): (r: Outcome<ErrorCode>)
    ensures r.Pass? <==> token.Some? && !IsBlank(token.value)
    ensures r.Fail? ==> r.error == AuthRefreshTokenRequired
  {
    if token.None? || IsBlank(token.value) then Fail(AuthRefreshTokenRequired) else Pass
  }

  /** The comparison in `validateTokenOwnership`, given the token's email. */
  function CheckOwnership(authenticatedEmail: Option<string>, emailFromToken: string): (r: Outcome<ErrorCode>)
    ensures r.Pass? <==> authenticatedEmail == Some(emailFromToken)
    ensures r.Fail? ==> r.error == AuthUnauthorized
  {
    if authenticatedEmail.None? || authenticatedEmail.value != emailFromToken then Fail(AuthUnauthorized) else Pass
  }

  /** The foreign security calls: `validateToken` (the error it throws, if
      any), `getEmail`, `sha256Hex`, `PasswordEncoder.encode` and `matches`. */
  datatype Security = Security(
    tokenError: string -> Option<ErrorCode>,
    emailOf: string -> string,
    hash: string -> string,
    encode: string -> string,
    matches: (string, string) -> bool)

  /** An `account` row: the username and the encoded password of an email. */
  datatype Account = Account(username: string, password: string)

  datatype SignUpRequest = SignUpRequest(email: Option<string>, username: Option<string>, password: string)

  datatype SignUpResponse = SignUpResponse(email: string, username: string)

  /** The service: accounts by email, the stored refresh tokens as
      (email, token hash) pairs, and the security functions. */
  class AuthService {
    var accounts: map<string, Account>
    var refreshTokens: set<(string, string)>
    const security: Security

    constructor (security: Security)
      ensures this.security == security && accounts == map[] && refreshTokens == {}
    {
      this.security := security;
      accounts := map[];
      refreshTokens := {};
    }

    /** `existsByUsername`. */
    predicate UsernameTaken(username: string)
      reads this
    {
      exists email :: email in accounts && accounts[email].username == username
    }

    /** `isEmailAvailable`: a well-formed email is available exactly when no
        account holds it; an ill-formed one is an error. Reads only. */
    function IsEmailAvailable(email: Option<string>): (r: Result<bool, ErrorCode>)
      reads this
      ensures r.Err? <==> ValidateEmail(email).Fail?
      ensures r.Err? ==> r.error == AuthInvalidEmailFormat
      ensures r.Ok? ==> (r.value <==> email.value !in accounts)
    {
      match ValidateEmail(email)
      case Fail(e) => Err(e)
      case Pass => Ok(email.value !in accounts)
    }

    /** `isUsernameAvailable`: the same for usernames. */
    function IsUsernameAvailable(username: Option<string>): (r: Result<bool, ErrorCode>)
      reads this
      ensures r.Err? <==> ValidateUsername(username).Fail?
      ensures r.Err? ==> r.error == AuthInvalidUsernameFormat
      ensures r.Ok? ==> (r.value <==> !UsernameTaken(username.value))
    {
      match ValidateUsername(username)
      case Fail(e) => Err(e)
      case Pass => Ok(!UsernameTaken(username.value))
    }

    /** The checks of `signUp`, in order: email format, username format,
        email not taken, username not taken. */
    function SignUpCheck(request: SignUpRequest): (r: Outcome<ErrorCode>)
      reads this
      ensures ValidateEmail(request.email).Fail? ==> r == Fail(AuthInvalidEmailFormat)
      ensures ValidateEmail(request.email).Pass? && ValidateUsername(request.username).Fail? ==>
        r == Fail(AuthInvalidUsernameFormat)
      ensures ValidateEmail(request.email).Pass? && ValidateUsername(request.username).Pass? ==>
        && (request.email.value in accounts ==> r == Fail(AuthEmailAlreadyExists))
        && (request.email.value !in accounts && UsernameTaken(request.username.value) ==>
              r == Fail(AuthUsernameAlreadyExists))
      ensures r.Pass? <==>
        && request.email.Some? && EmailPattern(request.email.value)
        && request.username.Some? && UsernamePattern(request.username.value)
        && request.email.value !in accounts && !UsernameTaken(request.username.value)
    {
      match ValidateEmail(request.email)
      case Fail(e) => Fail(e)
      case Pass =>
        match ValidateUsername(request.username)
        case Fail(e) => Fail(e)
        case Pass =>
          if request.email.value in accounts then Fail(AuthEmailAlreadyExists)
          else if UsernameTaken(request.username.value) then Fail(AuthUsernameAlreadyExists)
          else Pass
    }

    /** `signUp`: the account is inserted, with the encoded password, only
        when every check passes. */
    method SignUp(request: SignUpRequest) returns (r: Result<SignUpResponse, ErrorCode>)
      modifies this`accounts
      ensures var c := old(SignUpCheck(request));
        && (c.Fail? ==> r == Err(c.error) && accounts == old(accounts))
        && (c.Pass? ==>
              && r == Ok(SignUpResponse(request.email.value, request.username.value))
              && accounts == old(accounts)[request.email.value :=
                   Account(request.username.value, security.encode(request.password))])
    {
      var emailCheck := ValidateEmail(request.email);
      if emailCheck.Fail? {
        return Err(emailCheck.error);
      }
      var usernameCheck := ValidateUsername(request.username);
      if usernameCheck.Fail? {
        return Err(usernameCheck.error);
      }
      var email, username := request.email.value, request.username.value;
      if email in accounts {
        return Err(AuthEmailAlreadyExists);
      }
      if UsernameTaken(username) {
        return Err(AuthUsernameAlreadyExists);
      }
      accounts := accounts[email := Account(username, security.encode(request.password))];
      r := Ok(SignUpResponse(email, username));
    }

    /** `deleteRefreshToken`: removes the (email, hash) row; removing none is
        `AUTH_INVALID_REFRESH_TOKEN`. */
    method DeleteRefreshToken(token: string, emailFromToken: string) returns (r: Outcome<ErrorCode>)
      modifies this`refreshTokens
      ensures var row := (emailFromToken, security.hash(token));
        && (r.Pass? <==> row in old(refreshTokens))
        && (r.Fail? ==> r.error == AuthInvalidRefreshToken)
        && refreshTokens == old(refreshTokens) - {row}
    {
      var row := (emailFromToken, security.hash(token));
      var deleted := if row in refreshTokens then 1 else 0;
      refreshTokens := refreshTokens - {row};
      if deleted == 0 {
        return Fail(AuthInvalidRefreshToken);
      }
      r := Pass;
    }

    /** The checks of `withdraw` before anything is deleted, in order: token
        present, token valid, token owned by the caller, account found,
        password matching, token row stored. */
    function WithdrawCheck(authenticatedEmail: Option<string>, token: Option<string>, password: string)
      : (r: Outcome<ErrorCode>)
      reads this
      ensures CheckRefreshTokenPresence(token).Fail? ==> r == Fail(AuthRefreshTokenRequired)
      ensures CheckRefreshTokenPresence(token).Pass? && security.tokenError(token.value).Some? ==>
        r == Fail(security.tokenError(token.value).value)
      ensures CheckRefreshTokenPresence(token).Pass? && security.tokenError(token.value).None?
              && authenticatedEmail != Some(security.emailOf(token.value)) ==>
        r == Fail(AuthUnauthorized)
      ensures CheckRefreshTokenPresence(token).Pass? && security.tokenError(token.value).None?
              && authenticatedEmail == Some(security.emailOf(token.value)) ==>
        && (authenticatedEmail.value !in accounts ==> r == Fail(AuthAccountNotFound))
        && (authenticatedEmail.value in accounts
              && !security.matches(password, accounts[authenticatedEmail.value].password) ==>
              r == Fail(AuthInvalidCredentials))
      ensures r.Pass? <==>
        && token.Some? && !IsBlank(token.value) && security.tokenError(token.value).None?
        && authenticatedEmail == Some(security.emailOf(token.value))
        && authenticatedEmail.value in accounts
        && security.matches(password, accounts[authenticatedEmail.value].password)
        && (authenticatedEmail.value, security.hash(token.value)) in refreshTokens
    {
      match CheckRefreshTokenPresence(token)
      case Fail(e) => Fail(e)
      case Pass =>
        match security.tokenError(token.value)
        case Some(e) => Fail(e)
        case None =>
          var emailFromToken := security.emailOf(token.value);
          match CheckOwnership(authenticatedEmail, emailFromToken)
          case Fail(e) => Fail(e)
          case Pass =>
            if emailFromToken !in accounts then Fail(AuthAccountNotFound)
            else if !security.matches(password, accounts[emailFromToken].password) then Fail(AuthInvalidCredentials)
            else if (emailFromToken, security.hash(token.value)) !in refreshTokens then Fail(AuthInvalidRefreshToken)
            else Pass
    }

    /** `withdraw`: the token row and then the account are deleted, and only
        after every check passes; a failure changes nothing. */
    method Withdraw(authenticatedEmail: Option<string>, token: Option<string>, password: string)
      returns (r: Outcome<ErrorCode>)
      modifies this`accounts, this`refreshTokens
      ensures r == old(WithdrawCheck(authenticatedEmail, token, password))
      ensures r.Fail? ==> accounts == old(accounts) && refreshTokens == old(refreshTokens)
      ensures r.Pass? ==>
        && accounts == old(accounts) - {authenticatedEmail.value}
        && refreshTokens == old(refreshTokens) - {(authenticatedEmail.value, security.hash(token.value))}
    {
      var presence := CheckRefreshTokenPresence(token);
      if presence.Fail? {
        return presence;
      }
      var invalid := security.tokenError(token.value);
      if invalid.Some? {
        return Fail(invalid.value);
      }
      var emailFromToken := security.emailOf(token.value);
      var owner := CheckOwnership(authenticatedEmail, emailFromToken);
      if owner.Fail? {
        return owner;
      }
      var email := authenticatedEmail.value;
      if email !in accounts {
        return Fail(AuthAccountNotFound);
      }
      if !security.matches(password, accounts[email].password) {
        return Fail(AuthInvalidCredentials);
      }
      var deleted := DeleteRefreshToken(token.value, emailFromToken);
      if deleted.Fail? {
        return deleted;
      }
      accounts := accounts - {email};
      r := Pass;
    }

    /** `SingOut`: presence, validity and ownership of the token, then its
        row is deleted; the accounts are untouched. */
    method SignOut(authenticatedEmail: Option<string>, token: Option<string>) returns (r: Outcome<ErrorCode>)
      modifies this`refreshTokens
      ensures var present := CheckRefreshTokenPresence(token).Pass?;
        var valid := present && security.tokenError(token.value).None?;
        && (!present ==> r == Fail(AuthRefreshTokenRequired))
        && (present && !valid ==> r == Fail(security.tokenError(token.value).value))
        && (valid && authenticatedEmail != Some(security.emailOf(token.value)) ==> r == Fail(AuthUnauthorized))
        && (valid && authenticatedEmail == Some(security.emailOf(token.value))
            && (authenticatedEmail.value, security.hash(token.value)) !in old(refreshTokens) ==>
              r == Fail(AuthInvalidRefreshToken))
        && (r.Pass? <==> valid && authenticatedEmail == Some(security.emailOf(token.value))
                         && (authenticatedEmail.value, security.hash(token.value)) in old(refreshTokens))
        && (r.Pass? ==> refreshTokens == old(refreshTokens) - {(authenticatedEmail.value, security.hash(token.value))})
        && (r.Fail? ==> refreshTokens == old(refreshTokens))
    {
      var presence := CheckRefreshTokenPresence(token);
      if presence.Fail? {
        return presence;
      }
      var invalid := security.tokenError(token.value);
      if invalid.Some? {
        return Fail(invalid.value);
      }
      var emailFromToken := security.emailOf(token.value);
      var owner := CheckOwnership(authenticatedEmail, emailFromToken);
      if owner.Fail? {
        return owner;
      }
      r := DeleteRefreshToken(token.value, emailFromToken);
    }
  }

  /** "user@example.com" is a valid email. */
  lemma ValidEmailExample()
    ensures EmailPattern("user@example.com")
  {
    assert EmailAt("user@example.com", 4, 12);
  }

  /** "user@example" is not: it has no top-level part. */
  lemma {:induction false} InvalidEmailExample()
    ensures !EmailPattern("user@example")
  {
    var s := "user@example";
    assert forall k :: 0 <= k < |s| ==> s[k] != '.';
  }
}
