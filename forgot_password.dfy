/**
 * ForgotPasswordBottomSheet: the two-step password reset. The first step sends a reset
 * code to an e-mail; the second sends that code with the new password for the e-mail
 * kept from the first step.
 */
module ForgotPassword {
  import opened Wrappers
  import opened Text
  import opened Classify

  const EnterEmailMessage: string := "Введите e-mail"
  const BadEmailMessage: string := "Некорректный e-mail"
  const EnterCodeMessage: string := "Введите код"
  const EnterNewPasswordMessage: string := "Введите новый пароль"

  /** What "Send code" does: an error under the e-mail field, or the call to `forgotPassword`. */
  datatype SendAttempt = EmailFieldError(message: string) | SendForgot(email: string)

  datatype ResetInput = CodeField | NewPasswordField

  /** What "Reset" does: an error under one field, or the call to `resetPassword`. */
  datatype ResetAttempt =
    | ResetFieldError(input: ResetInput, message: string)
    | SendReset(email: string, code: string, newPassword: string)

  /** Which step of the sheet is on screen. */
  datatype SheetStep = EmailStep | CodeStep

  class ForgotPasswordSheet {
    /** The trimmed e-mail of the last "Send code", stored even when it is then refused. */
    var email: string
    var step: SheetStep

    constructor ()
      ensures email == [] && step == EmailStep
    {
      email := [];
      step := EmailStep;
    }

    /** `sendEmail`: the e-mail must be present and well-formed; `isEmail` is Android's address pattern. */
    method SendEmail(emailText: Option<string>, isEmail: string -> bool) returns (r: SendAttempt)
      modifies this
      ensures email == TrimOrEmpty(emailText) && step == old(step)
      ensures email == [] ==> r == EmailFieldError(EnterEmailMessage)
      ensures email != [] && !isEmail(email) ==> r == EmailFieldError(BadEmailMessage)
      ensures r.SendForgot? <==> email != [] && isEmail(email)
      ensures r.SendForgot? ==> r.email == email
    {
      email := TrimOrEmpty(emailText);
      if email == [] {
        return EmailFieldError(EnterEmailMessage);
      }
      if !isEmail(email) {
        return EmailFieldError(BadEmailMessage);
      }
      return SendForgot(email);
    }

    /** `forgotPassword` succeeded: the code step replaces the e-mail step. */
    method OnCodeSent()
      modifies this
      ensures step == CodeStep && email == old(email)
    {
      step := CodeStep;
    }

    /**
     * `resetPassword`: code and new password are trimmed and must both be present; the
     * code is checked first. The e-mail sent is the one kept from the first step.
     */
    method ResetPassword(codeText: Option<string>, newPasswordText: Option<string>) returns (r: ResetAttempt)
      ensures var code, newPassword := TrimOrEmpty(codeText), TrimOrEmpty(newPasswordText);
        && (code == [] ==> r == ResetFieldError(CodeField, EnterCodeMessage))
        && (code != [] && newPassword == [] ==> r == ResetFieldError(NewPasswordField, EnterNewPasswordMessage))
        && (r.SendReset? <==> code != [] && newPassword != [])
        && (r.SendReset? ==> r == SendReset(email, code, newPassword))
    {
      var code := TrimOrEmpty(codeText);
      var newPassword := TrimOrEmpty(newPasswordText);
      if code == [] {
        return ResetFieldError(CodeField, EnterCodeMessage);
      }
      if newPassword == [] {
        return ResetFieldError(NewPasswordField, EnterNewPasswordMessage);
      }
      return SendReset(email, code, newPassword);
    }
  }

  /** `handleForgotErrorUi`. */
  datatype ForgotError = ForgotNetworkProblem | EmailRequired | OtherForgotError

  const ForgotErrorRules: seq<Rule<ForgotError>> := [
    AnyOf([NetworkNeedle], ForgotNetworkProblem),
    AllOf(["email", "required"], EmailRequired)
  ]

  function HandleForgotError(message: string): (r: ForgotError)
    ensures MentionsNetwork(ToLower(message)) ==> r == ForgotNetworkProblem
  {
    NetworkRuleWins(message, ForgotErrorRules, OtherForgotError);
    ClassifyMessage(message, ForgotErrorRules, OtherForgotError)
  }

  /**
   * On the lowercased message: network; else a missing e-mail, which needs BOTH "email"
   * and "required"; else shown as it is.
   */
  lemma ForgotErrorOutcomes(message: string)
    ensures var t := ToLower(message);
      var required := Contains(t, "email") && Contains(t, "required");
      && (HandleForgotError(message) == ForgotNetworkProblem <==> MentionsNetwork(t))
      && (HandleForgotError(message) == EmailRequired <==> !MentionsNetwork(t) && required)
      && (HandleForgotError(message) == OtherForgotError <==> !MentionsNetwork(t) && !required)
  {
    var t := ToLower(message);
    var rules := ForgotErrorRules;
    var n1 := ["email", "required"];
    assert DistinctKinds(rules, OtherForgotError);
    OutcomeIffFirstToFire(t, rules, OtherForgotError);
    NetworkRuleFires(t, ForgotNetworkProblem);
    AllOfFires(t, n1, EmailRequired);
    assert n1[0] in n1 && n1[1] in n1;
    assert FirstToFire(t, rules, 1) <==> !Fires(t, rules[0]) && Fires(t, rules[1]);
  }

  /** `handleResetErrorUi`. */
  datatype ResetError =
    | ResetNetworkProblem | WrongResetCode | ResetCodeExpired | TooManyResetAttempts | UserNotFound
    | NewPasswordRejected | OtherResetError

  const ResetErrorRules: seq<Rule<ResetError>> := [
    AnyOf([NetworkNeedle], ResetNetworkProblem),
    AnyOf(["invalid reset code", "invalid code", "неверный код"], WrongResetCode),
    AnyOf(["no active reset code"], ResetCodeExpired),
    AnyOf(["maximum reset attempts exceeded"], TooManyResetAttempts),
    AnyOf(["user not found"], UserNotFound),
    AnyOf(["password", "парол"], NewPasswordRejected)
  ]

  function HandleResetError(message: string): (r: ResetError)
    ensures MentionsNetwork(ToLower(message)) ==> r == ResetNetworkProblem
  {
    NetworkRuleWins(message, ResetErrorRules, OtherResetError);
    ClassifyMessage(message, ResetErrorRules, OtherResetError)
  }

  predicate MentionsWrongResetCode(t: string)
  {
    Contains(t, "invalid reset code") || Contains(t, "invalid code") || Contains(t, "неверный код")
  }

  predicate MentionsPassword(t: string)
  {
    Contains(t, "password") || Contains(t, "парол")
  }

  lemma ResetRulesFire(t: string)
    ensures Fires(t, ResetErrorRules[0]) <==> MentionsNetwork(t)
    ensures Fires(t, ResetErrorRules[1]) <==> MentionsWrongResetCode(t)
    ensures Fires(t, ResetErrorRules[2]) <==> Contains(t, "no active reset code")
    ensures Fires(t, ResetErrorRules[3]) <==> Contains(t, "maximum reset attempts exceeded")
    ensures Fires(t, ResetErrorRules[4]) <==> Contains(t, "user not found")
    ensures Fires(t, ResetErrorRules[5]) <==> MentionsPassword(t)
  {
    NetworkRuleFires(t, ResetNetworkProblem);
    AnyOfThreeFires(t, "invalid reset code", "invalid code", "неверный код", WrongResetCode);
    AnyOfOneFires(t, "no active reset code", ResetCodeExpired);
    AnyOfOneFires(t, "maximum reset attempts exceeded", TooManyResetAttempts);
    AnyOfOneFires(t, "user not found", UserNotFound);
    AnyOfTwoFires(t, "password", "парол", NewPasswordRejected);
  }

  /**
   * On the lowercased message, the branches in order: network, wrong code, expired code,
   * too many attempts, unknown user, rejected new password, else shown as it is.
   */
  lemma ResetErrorOutcomes(message: string)
    ensures var t := ToLower(message);
      var network, wrong := MentionsNetwork(t), MentionsWrongResetCode(t);
      var expired := Contains(t, "no active reset code");
      var exceeded := Contains(t, "maximum reset attempts exceeded");
      var unknown := Contains(t, "user not found");
      var password := MentionsPassword(t);
      && (HandleResetError(message) == ResetNetworkProblem <==> network)
      && (HandleResetError(message) == WrongResetCode <==> !network && wrong)
      && (HandleResetError(message) == ResetCodeExpired <==> !network && !wrong && expired)
      && (HandleResetError(message) == TooManyResetAttempts <==> !network && !wrong && !expired && exceeded)
      && (HandleResetError(message) == UserNotFound <==> !network && !wrong && !expired && !exceeded && unknown)
      && (HandleResetError(message) == NewPasswordRejected <==>
           !network && !wrong && !expired && !exceeded && !unknown && password)
      && (HandleResetError(message) == OtherResetError <==>
           !network && !wrong && !expired && !exceeded && !unknown && !password)
  {
    ResetErrorValue(message);
  }

  /** The outcome of `handleResetErrorUi` as the chain of `if`s reads. */
  lemma ResetErrorValue(message: string)
    ensures var t := ToLower(message);
      HandleResetError(message) ==
        if MentionsNetwork(t) then ResetNetworkProblem
        else if MentionsWrongResetCode(t) then WrongResetCode
        else if Contains(t, "no active reset code") then ResetCodeExpired
        else if Contains(t, "maximum reset attempts exceeded") then TooManyResetAttempts
        else if Contains(t, "user not found") then UserNotFound
        else if MentionsPassword(t) then NewPasswordRejected
        else OtherResetError
  {
    var t := ToLower(message);
    FirstMatchOfSix(t, ResetErrorRules, OtherResetError);
    ResetRulesFire(t);
  }
}
