/**
 * LoginActivity: the checks run on the login form before `AuthRepository.login` is
 * called, the phone-number rules they use, and how an error message from the
 * repository is turned into feedback on the form.
 */
module Login {
  import opened Wrappers
  import opened Text
  import opened Classify

  const PhoneMinLength: nat := 10
  const PhoneMaxLength: nat := 15

  const EnterLoginMessage: string := "Введите e-mail или телефон"
  const BadEmailMessage: string := "Некорректный e-mail"
  const BadPhoneMessage: string := "Некорректный номер телефона"
  const EnterPasswordMessage: string := "Введите пароль"

  /** The number without one leading `+`. */
  function WithoutPlus(s: string): (d: string)
    ensures |d| == |s| || (|d| == |s| - 1 && s[0] == '+')
    ensures s != [] && s[0] == '+' ==> d == s[1..]
  {
    if s != [] && s[0] == '+' then s[1..] else s
  }

  /** `isValidPhone`: after an optional leading `+`, 10 to 15 characters, all digits. */
  predicate PhoneRule(phone: string)
  {
    var digits := WithoutPlus(phone);
    PhoneMinLength <= |digits| <= PhoneMaxLength && AllDigits(digits)
  }

  /** `isDigitsOrPlus`: not empty, not a lone `+`, and digits after an optional leading `+`. */
  predicate DigitsOrPlusRule(value: string)
  {
    value != [] && value != "+" && AllDigits(WithoutPlus(value))
  }

  /** The character-by-character check of `isValidPhone`. */
  method IsValidPhone(phone: string) returns (ok: bool)
    ensures ok <==> PhoneRule(phone)
  {
    var digits := if |phone| > 0 && phone[0] == '+' then phone[1..] else phone;
    if |digits| < PhoneMinLength || |digits| > PhoneMaxLength {
      return false;
    }
    var i := 0;
    while i < |digits|
      invariant 0 <= i <= |digits|
      invariant forall j :: 0 <= j < i ==> IsDigit(digits[j])
    {
      if !IsDigit(digits[i]) {
        return false;
      }
      i := i + 1;
    }
    return true;
  }

  /** The character-by-character check of `isDigitsOrPlus`. */
  method IsDigitsOrPlus(value: string) returns (ok: bool)
    ensures ok <==> DigitsOrPlusRule(value)
  {
    if |value| == 0 {
      return false;
    }
    var start := 0;
    if value[0] == '+' {
      if |value| == 1 {
        return false;
      }
      start := 1;
    }
    assert WithoutPlus(value) == value[start..];
    var i := start;
    while i < |value|
      invariant start <= i <= |value|
      invariant forall j :: start <= j < i ==> IsDigit(value[j])
    {
      if !IsDigit(value[i]) {
        assert value[start..][i - start] == value[i];
        return false;
      }
      i := i + 1;
    }
    return true;
  }

  /** A valid phone number always looks like one, so it is never taken for a username. */
  lemma ValidPhoneIsDigitsOrPlus(s: string)
    requires PhoneRule(s)
    ensures DigitsOrPlusRule(s)
  {
  }

  /** A string of digits after an optional `+` has no `@`. */
  lemma {:induction false} DigitsOrPlusHasNoAt(s: string)
    requires DigitsOrPlusRule(s)
    ensures !Contains(s, "@")
  {
    ContainsIffOccurs(s, "@");
    forall k | 0 <= k < |s|
      ensures !OccursAt(s, "@", k)
    {
      if s[0] == '+' && k > 0 {
        assert s[k] == WithoutPlus(s)[k - 1];
      } else if s[0] != '+' {
        assert s[k] == WithoutPlus(s)[k];
      }
      assert s[k..k + 1][0] == s[k];
    }
  }

  /** How the login text is read: an e-mail when it has `@`, a phone number when it looks like one, else a username. */
  datatype LoginKind = EmailLogin | PhoneLogin | UsernameLogin

  function KindOf(login: string): (k: LoginKind)
    ensures k == EmailLogin <==> Contains(login, "@")
    ensures k == PhoneLogin <==> !Contains(login, "@") && DigitsOrPlusRule(login)
  {
    if Contains(login, "@") then EmailLogin
    else if DigitsOrPlusRule(login) then PhoneLogin
    else UsernameLogin
  }

  datatype LoginInput = LoginField | PasswordField

  /** What pressing the login button does: an error under one field, or the call to `login`. */
  datatype LoginAttempt =
    | FieldError(input: LoginInput, message: string)
    | SubmitLogin(login: string, password: string)

  /** The format check for the login text; a username passes unchecked. */
  predicate LoginFormatOk(login: string, isEmail: string -> bool)
  {
    match KindOf(login)
    case EmailLogin => isEmail(login)
    case PhoneLogin => PhoneRule(login)
    case UsernameLogin => true
  }

  /**
   * `performLogin`'s decision. The login text is trimmed, the password is not; the
   * checks run in order and the first failing one puts its message under its field.
   * `isEmail` stands for Android's e-mail address pattern.
   */
  function LoginDecision(loginText: Option<string>, passwordText: Option<string>, isEmail: string -> bool): (r: LoginAttempt)
    ensures var login, password := TrimOrEmpty(loginText), passwordText.GetOr([]);
      && (login == [] ==> r == FieldError(LoginField, EnterLoginMessage))
      && (login != [] && KindOf(login) == EmailLogin && !isEmail(login) ==> r == FieldError(LoginField, BadEmailMessage))
      && (login != [] && KindOf(login) == PhoneLogin && !PhoneRule(login) ==> r == FieldError(LoginField, BadPhoneMessage))
      && (login != [] && LoginFormatOk(login, isEmail) && password == [] ==> r == FieldError(PasswordField, EnterPasswordMessage))
      && (r.SubmitLogin? <==> login != [] && LoginFormatOk(login, isEmail) && password != [])
      && (r.SubmitLogin? ==> r.login == login && r.password == password)
  {
    var login, password := TrimOrEmpty(loginText), passwordText.GetOr([]);
    if login == [] then FieldError(LoginField, EnterLoginMessage)
    else if Contains(login, "@") && !isEmail(login) then FieldError(LoginField, BadEmailMessage)
    else if !Contains(login, "@") && DigitsOrPlusRule(login) && !PhoneRule(login) then FieldError(LoginField, BadPhoneMessage)
    else if password == [] then FieldError(PasswordField, EnterPasswordMessage)
    else SubmitLogin(login, password)
  }

  /** `performLogin`, running the two character loops. */
  method PerformLogin(loginText: Option<string>, passwordText: Option<string>, isEmail: string -> bool) returns (r: LoginAttempt)
    ensures r == LoginDecision(loginText, passwordText, isEmail)
  {
    var login := if loginText.Some? then Trim(loginText.value) else [];
    var password := if passwordText.Some? then passwordText.value else [];
    if login == [] {
      return FieldError(LoginField, EnterLoginMessage);
    }
    if Contains(login, "@") {
      if !isEmail(login) {
        return FieldError(LoginField, BadEmailMessage);
      }
    } else {
      var looksLikePhone := IsDigitsOrPlus(login);
      if looksLikePhone {
        var phoneOk := IsValidPhone(login);
        if !phoneOk {
          return FieldError(LoginField, BadPhoneMessage);
        }
      }
    }
    if password == [] {
      return FieldError(PasswordField, EnterPasswordMessage);
    }
    return SubmitLogin(login, password);
  }

  /** A well-formed phone number with a password is sent as typed, without its surrounding blanks. */
  lemma PhoneLoginSubmitted(loginText: string, password: string, isEmail: string -> bool)
    requires PhoneRule(Trim(loginText)) && password != []
    ensures LoginDecision(Some(loginText), Some(password), isEmail) == SubmitLogin(Trim(loginText), password)
  {
    ValidPhoneIsDigitsOrPlus(Trim(loginText));
    DigitsOrPlusHasNoAt(Trim(loginText));
  }

  /** The password is sent exactly as typed: blanks around it are kept. */
  lemma PasswordNotTrimmed(loginText: Option<string>, password: string, isEmail: string -> bool)
    requires LoginDecision(loginText, Some(password), isEmail).SubmitLogin?
    ensures LoginDecision(loginText, Some(password), isEmail).password == password
  {
  }

  /** The feedback `handleLoginErrorUi` gives for an error message from `login`. */
  datatype LoginError = LoginNetworkProblem | WrongCredentials | EmailNotVerified | OtherLoginError

  const LoginErrorRules: seq<Rule<LoginError>> := [
    AnyOf([NetworkNeedle], LoginNetworkProblem),
    AnyOf(["incorrect login or password", "неверный логин или пароль"], WrongCredentials),
    AnyOf(["email is not verified", "email не подтвержден", "email_not_verified"], EmailNotVerified)
  ]

  function HandleLoginError(message: string): (r: LoginError)
    ensures MentionsNetwork(ToLower(message)) ==> r == LoginNetworkProblem
  {
    NetworkRuleWins(message, LoginErrorRules, OtherLoginError);
    ClassifyMessage(message, LoginErrorRules, OtherLoginError)
  }

  predicate MentionsBadCredentials(t: string)
  {
    Contains(t, "incorrect login or password") || Contains(t, "неверный логин или пароль")
  }

  predicate MentionsUnverifiedEmail(t: string)
  {
    Contains(t, "email is not verified") || Contains(t, "email не подтвержден") || Contains(t, "email_not_verified")
  }

  lemma LoginRulesFire(t: string)
    ensures Fires(t, LoginErrorRules[0]) <==> MentionsNetwork(t)
    ensures Fires(t, LoginErrorRules[1]) <==> MentionsBadCredentials(t)
    ensures Fires(t, LoginErrorRules[2]) <==> MentionsUnverifiedEmail(t)
  {
    NetworkRuleFires(t, LoginNetworkProblem);
    AnyOfTwoFires(t, "incorrect login or password", "неверный логин или пароль", WrongCredentials);
    AnyOfThreeFires(t, "email is not verified", "email не подтвержден", "email_not_verified", EmailNotVerified);
  }

  /**
   * `handleLoginErrorUi` on the lowercased message: a network problem when it mentions
   * "сетев"; otherwise wrong credentials for either phrase; otherwise an unverified
   * e-mail for any of three phrases; otherwise the message is shown as it is.
   */
  lemma LoginErrorOutcomes(message: string)
    ensures var t := ToLower(message);
      && (HandleLoginError(message) == LoginNetworkProblem <==> MentionsNetwork(t))
      && (HandleLoginError(message) == WrongCredentials <==> !MentionsNetwork(t) && MentionsBadCredentials(t))
      && (HandleLoginError(message) == EmailNotVerified <==>
           !MentionsNetwork(t) && !MentionsBadCredentials(t) && MentionsUnverifiedEmail(t))
      && (HandleLoginError(message) == OtherLoginError <==>
           !MentionsNetwork(t) && !MentionsBadCredentials(t) && !MentionsUnverifiedEmail(t))
  {
    var t := ToLower(message);
    var rules := LoginErrorRules;
    assert DistinctKinds(rules, OtherLoginError);
    OutcomeIffFirstToFire(t, rules, OtherLoginError);
    LoginRulesFire(t);
    assert FirstToFire(t, rules, 1) <==> !Fires(t, rules[0]) && Fires(t, rules[1]);
    assert FirstToFire(t, rules, 2) <==> !Fires(t, rules[0]) && !Fires(t, rules[1]) && Fires(t, rules[2]);
  }
}
