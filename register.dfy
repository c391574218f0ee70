/**
 * RegisterBottomSheet: the two-step sign-up sheet. The first step checks e-mail,
 * password and optional phone and calls `register`; the second asks for the code sent
 * by e-mail, confirms it and logs in with the credentials kept from the first step.
 */
module Register {
  import opened Wrappers
  import opened Text
  import opened Classify
  import Login

  const EnterEmailMessage: string := "Введите e-mail"
  const BadEmailMessage: string := "Некорректный e-mail"
  const EnterPasswordMessage: string := "Введите пароль"
  const BadPhoneMessage: string := "Некорректный номер телефона"
  const EnterCodeMessage: string := "Введите код"

  datatype RegisterInput = EmailField | PasswordField | PhoneField

  /** What "Continue" does: an error under one field, or the call to `register`. */
  datatype RegisterAttempt =
    | RegisterFieldError(input: RegisterInput, message: string)
    | SendRegister(email: string, password: string, phone: string)

  /**
   * `startRegister`'s checks on the trimmed fields, in order: e-mail present, e-mail
   * well-formed, password present, and a phone, when one is given, well-formed.
   */
  function RegisterDecision(email: string, password: string, phone: string, isEmail: string -> bool): (r: RegisterAttempt)
    ensures r.SendRegister? <==>
      email != [] && isEmail(email) && password != [] && (phone == [] || Login.PhoneRule(phone))
    ensures r.SendRegister? ==> r == SendRegister(email, password, phone)
    ensures email == [] ==> r == RegisterFieldError(EmailField, EnterEmailMessage)
    ensures email != [] && !isEmail(email) ==> r == RegisterFieldError(EmailField, BadEmailMessage)
    ensures email != [] && isEmail(email) && password == [] ==>
      r == RegisterFieldError(PasswordField, EnterPasswordMessage)
    ensures email != [] && isEmail(email) && password != [] && phone != [] && !Login.PhoneRule(phone) ==>
      r == RegisterFieldError(PhoneField, BadPhoneMessage)
  {
    if email == [] then RegisterFieldError(EmailField, EnterEmailMessage)
    else if !isEmail(email) then RegisterFieldError(EmailField, BadEmailMessage)
    else if password == [] then RegisterFieldError(PasswordField, EnterPasswordMessage)
    else if phone != [] && !Login.PhoneRule(phone) then RegisterFieldError(PhoneField, BadPhoneMessage)
    else SendRegister(email, password, phone)
  }

  /** The phone is optional: leaving it blank never blocks sign-up. */
  lemma PhoneIsOptional(email: string, password: string, phone: string, isEmail: string -> bool)
    requires RegisterDecision(email, password, phone, isEmail).SendRegister?
    ensures RegisterDecision(email, password, [], isEmail) == SendRegister(email, password, [])
  {
  }

  /**
   * A phone number the sheet registers, typed on the login screen with the same
   * password, passes the login screen's checks and is sent as it was registered.
   */
  lemma RegisteredPhoneCanLogIn(emailText: Option<string>, passwordText: Option<string>, phoneText: Option<string>,
                                isEmail: string -> bool)
    requires var phone := TrimOrEmpty(phoneText);
      RegisterDecision(TrimOrEmpty(emailText), TrimOrEmpty(passwordText), phone, isEmail).SendRegister? && phone != []
    ensures var phone, password := TrimOrEmpty(phoneText), TrimOrEmpty(passwordText);
      Login.LoginDecision(Some(phone), Some(password), isEmail) == Login.SubmitLogin(phone, password)
  {
    var phone := TrimOrEmpty(phoneText);
    TrimIdempotent(phoneText.value);
    Login.PhoneLoginSubmitted(phone, TrimOrEmpty(passwordText), isEmail);
  }

  /** What "Confirm" does: an error under the code field, or the call to `confirmEmail`. */
  datatype ConfirmAttempt = CodeFieldError(message: string) | SendConfirm(email: string, code: string)

  /** Which step of the sheet is on screen. */
  datatype SheetStep = RegisterStep | CodeStep

  class RegisterSheet {
    /** The trimmed e-mail, password and phone of the last "Continue". */
    var email: string
    var password: string
    var phone: string
    var step: SheetStep

    constructor ()
      ensures email == [] && password == [] && phone == [] && step == RegisterStep
    {
      email, password, phone := [], [], [];
      step := RegisterStep;
    }

    /** `startRegister`: the trimmed fields are stored before they are checked. */
    method StartRegister(emailText: Option<string>, passwordText: Option<string>, phoneText: Option<string>,
                         isEmail: string -> bool) returns (r: RegisterAttempt)
      modifies this
      ensures email == TrimOrEmpty(emailText) && password == TrimOrEmpty(passwordText) && phone == TrimOrEmpty(phoneText)
      ensures step == old(step)
      ensures r == RegisterDecision(email, password, phone, isEmail)
    {
      email := TrimOrEmpty(emailText);
      password := TrimOrEmpty(passwordText);
      phone := TrimOrEmpty(phoneText);
      if email == [] {
        return RegisterFieldError(EmailField, EnterEmailMessage);
      }
      if !isEmail(email) {
        return RegisterFieldError(EmailField, BadEmailMessage);
      }
      if password == [] {
        return RegisterFieldError(PasswordField, EnterPasswordMessage);
      }
      if phone != [] {
        var phoneOk := Login.IsValidPhone(phone);
        if !phoneOk {
          return RegisterFieldError(PhoneField, BadPhoneMessage);
        }
      }
      return SendRegister(email, password, phone);
    }

    /** `register` succeeded: the code step replaces the form; the credentials are kept. */
    method OnRegisterSuccess()
      modifies this
      ensures step == CodeStep
      ensures email == old(email) && password == old(password) && phone == old(phone)
    {
      step := CodeStep;
    }

    /** `confirmCode`: the trimmed code is sent for the e-mail kept from the first step. */
    method ConfirmCode(codeText: Option<string>) returns (r: ConfirmAttempt)
      ensures TrimOrEmpty(codeText) == [] ==> r == CodeFieldError(EnterCodeMessage)
      ensures TrimOrEmpty(codeText) != [] ==> r == SendConfirm(email, TrimOrEmpty(codeText))
    {
      var code := TrimOrEmpty(codeText);
      if code == [] {
        return CodeFieldError(EnterCodeMessage);
      }
      return SendConfirm(email, code);
    }

    /** `autoLoginAfterConfirmation`: the login sent once the code is accepted uses the kept credentials. */
    method AutoLogin() returns (login: string, pass: string)
      ensures login == email && pass == password
    {
      login, pass := email, password;
    }

    /** `resendCode`: the code is resent to the kept e-mail. */
    method ResendCode() returns (target: string)
      ensures target == email
    {
      target := email;
    }
  }

  /** `handleRegisterErrorUi`. */
  datatype RegisterError = RegisterNetworkProblem | EmailTaken | PasswordRejected | OtherRegisterError

  const RegisterErrorRules: seq<Rule<RegisterError>> := [
    AnyOf([NetworkNeedle], RegisterNetworkProblem),
    AnyOf(["user with this email already registered", "already registered"], EmailTaken),
    AnyOf(["password", "парол"], PasswordRejected)
  ]

  function HandleRegisterError(message: string): (r: RegisterError)
    ensures MentionsNetwork(ToLower(message)) ==> r == RegisterNetworkProblem
  {
    NetworkRuleWins(message, RegisterErrorRules, OtherRegisterError);
    ClassifyMessage(message, RegisterErrorRules, OtherRegisterError)
  }

  predicate MentionsTakenEmail(t: string)
  {
    Contains(t, "user with this email already registered") || Contains(t, "already registered")
  }

  predicate MentionsPassword(t: string)
  {
    Contains(t, "password") || Contains(t, "парол")
  }

  lemma RegisterRulesFire(t: string)
    ensures Fires(t, RegisterErrorRules[0]) <==> MentionsNetwork(t)
    ensures Fires(t, RegisterErrorRules[1]) <==> MentionsTakenEmail(t)
    ensures Fires(t, RegisterErrorRules[2]) <==> MentionsPassword(t)
  {
    NetworkRuleFires(t, RegisterNetworkProblem);
    AnyOfTwoFires(t, "user with this email already registered", "already registered", EmailTaken);
    AnyOfTwoFires(t, "password", "парол", PasswordRejected);
  }

  /**
   * On the lowercased message: a network problem; else an e-mail already in use; else a
   * rejected password; else the message is shown as it is.
   */
  lemma RegisterErrorOutcomes(message: string)
    ensures var t := ToLower(message);
      && (HandleRegisterError(message) == RegisterNetworkProblem <==> MentionsNetwork(t))
      && (HandleRegisterError(message) == EmailTaken <==> !MentionsNetwork(t) && MentionsTakenEmail(t))
      && (HandleRegisterError(message) == PasswordRejected <==>
           !MentionsNetwork(t) && !MentionsTakenEmail(t) && MentionsPassword(t))
      && (HandleRegisterError(message) == OtherRegisterError <==>
           !MentionsNetwork(t) && !MentionsTakenEmail(t) && !MentionsPassword(t))
  {
    var t := ToLower(message);
    var rules := RegisterErrorRules;
    assert DistinctKinds(rules, OtherRegisterError);
    OutcomeIffFirstToFire(t, rules, OtherRegisterError);
    RegisterRulesFire(t);
    assert FirstToFire(t, rules, 1) <==> !Fires(t, rules[0]) && Fires(t, rules[1]);
    assert FirstToFire(t, rules, 2) <==> !Fires(t, rules[0]) && !Fires(t, rules[1]) && Fires(t, rules[2]);
  }

  /** `handleConfirmErrorUi`; an already verified e-mail closes the sheet. */
  datatype ConfirmError = ConfirmNetworkProblem | WrongCode | CodeExpired | TooManyAttempts | AlreadyVerified | OtherConfirmError

  const ConfirmErrorRules: seq<Rule<ConfirmError>> := [
    AnyOf([NetworkNeedle], ConfirmNetworkProblem),
    AnyOf(["invalid verification code", "invalid code", "неверный код"], WrongCode),
    AnyOf(["no active verification code"], CodeExpired),
    AnyOf(["maximum verification attempts exceeded"], TooManyAttempts),
    AnyOf(["email_already_verified"], AlreadyVerified)
  ]

  function HandleConfirmError(message: string): (r: ConfirmError)
    ensures MentionsNetwork(ToLower(message)) ==> r == ConfirmNetworkProblem
  {
    NetworkRuleWins(message, ConfirmErrorRules, OtherConfirmError);
    ClassifyMessage(message, ConfirmErrorRules, OtherConfirmError)
  }

  predicate MentionsWrongCode(t: string)
  {
    Contains(t, "invalid verification code") || Contains(t, "invalid code") || Contains(t, "неверный код")
  }

  lemma ConfirmRulesFire(t: string)
    ensures Fires(t, ConfirmErrorRules[0]) <==> MentionsNetwork(t)
    ensures Fires(t, ConfirmErrorRules[1]) <==> MentionsWrongCode(t)
    ensures Fires(t, ConfirmErrorRules[2]) <==> Contains(t, "no active verification code")
    ensures Fires(t, ConfirmErrorRules[3]) <==> Contains(t, "maximum verification attempts exceeded")
    ensures Fires(t, ConfirmErrorRules[4]) <==> Contains(t, "email_already_verified")
  {
    NetworkRuleFires(t, ConfirmNetworkProblem);
    AnyOfThreeFires(t, "invalid verification code", "invalid code", "неверный код", WrongCode);
    AnyOfOneFires(t, "no active verification code", CodeExpired);
    AnyOfOneFires(t, "maximum verification attempts exceeded", TooManyAttempts);
    AnyOfOneFires(t, "email_already_verified", AlreadyVerified);
  }

  /**
   * On the lowercased message, the branches in order: network, wrong code, expired code,
   * too many attempts, already verified (the sheet is dismissed), else shown as it is.
   */
  lemma ConfirmErrorOutcomes(message: string)
    ensures var t := ToLower(message);
      var network, wrong := MentionsNetwork(t), MentionsWrongCode(t);
      var expired := Contains(t, "no active verification code");
      var exceeded := Contains(t, "maximum verification attempts exceeded");
      var verified := Contains(t, "email_already_verified");
      && (HandleConfirmError(message) == ConfirmNetworkProblem <==> network)
      && (HandleConfirmError(message) == WrongCode <==> !network && wrong)
      && (HandleConfirmError(message) == CodeExpired <==> !network && !wrong && expired)
      && (HandleConfirmError(message) == TooManyAttempts <==> !network && !wrong && !expired && exceeded)
      && (HandleConfirmError(message) == AlreadyVerified <==>
           !network && !wrong && !expired && !exceeded && verified)
      && (HandleConfirmError(message) == OtherConfirmError <==>
           !network && !wrong && !expired && !exceeded && !verified)
  {
    ConfirmErrorValue(message);
  }

  /** The outcome of `handleConfirmErrorUi` as the chain of `if`s reads. */
  lemma ConfirmErrorValue(message: string)
    ensures var t := ToLower(message);
      HandleConfirmError(message) ==
        if MentionsNetwork(t) then ConfirmNetworkProblem
        else if MentionsWrongCode(t) then WrongCode
        else if Contains(t, "no active verification code") then CodeExpired
        else if Contains(t, "maximum verification attempts exceeded") then TooManyAttempts
        else if Contains(t, "email_already_verified") then AlreadyVerified
        else OtherConfirmError
  {
    var t := ToLower(message);
    FirstMatchOfFive(t, ConfirmErrorRules, OtherConfirmError);
    ConfirmRulesFire(t);
  }

  /** `handleResendErrorUi`. */
  datatype ResendError = ResendNetworkProblem | ResendAlreadyVerified | OtherResendError

  const ResendErrorRules: seq<Rule<ResendError>> := [
    AnyOf([NetworkNeedle], ResendNetworkProblem),
    AnyOf(["email already verified", "email_already_verified"], ResendAlreadyVerified)
  ]

  function HandleResendError(message: string): (r: ResendError)
    ensures MentionsNetwork(ToLower(message)) ==> r == ResendNetworkProblem
  {
    NetworkRuleWins(message, ResendErrorRules, OtherResendError);
    ClassifyMessage(message, ResendErrorRules, OtherResendError)
  }

  /** On the lowercased message: network; else an e-mail already verified, in either spelling; else shown as it is. */
  lemma ResendErrorOutcomes(message: string)
    ensures var t := ToLower(message);
      var verified := Contains(t, "email already verified") || Contains(t, "email_already_verified");
      && (HandleResendError(message) == ResendNetworkProblem <==> MentionsNetwork(t))
      && (HandleResendError(message) == ResendAlreadyVerified <==> !MentionsNetwork(t) && verified)
      && (HandleResendError(message) == OtherResendError <==> !MentionsNetwork(t) && !verified)
  {
    var t := ToLower(message);
    var rules := ResendErrorRules;
    assert DistinctKinds(rules, OtherResendError);
    OutcomeIffFirstToFire(t, rules, OtherResendError);
    NetworkRuleFires(t, ResendNetworkProblem);
    AnyOfTwoFires(t, "email already verified", "email_already_verified", ResendAlreadyVerified);
    assert FirstToFire(t, rules, 1) <==> !Fires(t, rules[0]) && Fires(t, rules[1]);
  }

  /** `handleAutoLoginErrorUi`: the e-mail is confirmed either way; only the toast differs. */
  datatype AutoLoginError = AutoLoginNetworkProblem | AutoLoginRejected | OtherAutoLoginError

  const AutoLoginErrorRules: seq<Rule<AutoLoginError>> := [
    AnyOf([NetworkNeedle], AutoLoginNetworkProblem),
    AnyOf(["incorrect login or password"], AutoLoginRejected)
  ]

  function HandleAutoLoginError(message: string): (r: AutoLoginError)
    ensures MentionsNetwork(ToLower(message)) ==> r == AutoLoginNetworkProblem
  {
    NetworkRuleWins(message, AutoLoginErrorRules, OtherAutoLoginError);
    ClassifyMessage(message, AutoLoginErrorRules, OtherAutoLoginError)
  }

  /**
   * On the lowercased message: network; else rejected credentials (only the English
   * phrase is recognised here, unlike the login screen); else shown as it is.
   */
  lemma AutoLoginErrorOutcomes(message: string)
    ensures var t := ToLower(message);
      var rejected := Contains(t, "incorrect login or password");
      && (HandleAutoLoginError(message) == AutoLoginNetworkProblem <==> MentionsNetwork(t))
      && (HandleAutoLoginError(message) == AutoLoginRejected <==> !MentionsNetwork(t) && rejected)
      && (HandleAutoLoginError(message) == OtherAutoLoginError <==> !MentionsNetwork(t) && !rejected)
  {
    var t := ToLower(message);
    var rules := AutoLoginErrorRules;
    assert DistinctKinds(rules, OtherAutoLoginError);
    OutcomeIffFirstToFire(t, rules, OtherAutoLoginError);
    NetworkRuleFires(t, AutoLoginNetworkProblem);
    AnyOfOneFires(t, "incorrect login or password", AutoLoginRejected);
    assert FirstToFire(t, rules, 1) <==> !Fires(t, rules[0]) && Fires(t, rules[1]);
  }
}
