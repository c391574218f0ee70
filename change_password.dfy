/**
 * ChangePasswordBottomSheet: the three password fields are trimmed, checked by four
 * independent rules, and only a form that passes all four is sent. The two rules on the
 * new password share its field, so at most three messages are on screen at once.
 */
module ChangePassword {
  import opened Wrappers
  import opened Text

  const PasswordMinLength: nat := 8

  /** One failed rule of `validate`; each puts an error under its field. */
  datatype PasswordError = OldTooShort | NewTooShort | SameAsOld | ConfirmMismatch

  /**
   * `validate`: every rule is evaluated (the `ok` flag only accumulates), so the result is
   * the set of all failed rules; the form is valid exactly when none fails.
   */
  function Validate(oldPass: string, newPass: string, confirm: string): (errors: set<PasswordError>)
    ensures errors == {} <==>
      |oldPass| >= PasswordMinLength && |newPass| >= PasswordMinLength && newPass != oldPass && newPass == confirm
    ensures OldTooShort in errors <==> |oldPass| < PasswordMinLength
    ensures NewTooShort in errors <==> |newPass| < PasswordMinLength
    ensures SameAsOld in errors <==> newPass == oldPass
    ensures ConfirmMismatch in errors <==> newPass != confirm
  {
    (if |oldPass| < PasswordMinLength then {OldTooShort} else {}) +
    (if |newPass| < PasswordMinLength then {NewTooShort} else {}) +
    (if newPass == oldPass then {SameAsOld} else {}) +
    (if newPass != confirm then {ConfirmMismatch} else {})
  }

  /** Several rules can fail at once: an empty form with a stray confirmation fails all four. */
  lemma AllRulesCanFailTogether()
    ensures Validate("", "", "x") == {OldTooShort, NewTooShort, SameAsOld, ConfirmMismatch}
  {
  }

  /** The three input layouts that carry an error message. */
  datatype PasswordField = OldField | NewField | ConfirmField

  /**
   * The message each layout shows after `validate`: `setError` replaces a layout's message,
   * and the same-as-old rule is checked after the length rule on the same layout, so it wins.
   */
  function ShownErrors(errors: set<PasswordError>): (shown: map<PasswordField, PasswordError>)
    ensures OldField in shown <==> OldTooShort in errors
    ensures ConfirmField in shown <==> ConfirmMismatch in errors
    ensures NewField in shown <==> NewTooShort in errors || SameAsOld in errors
    ensures OldField in shown ==> shown[OldField] == OldTooShort
    ensures ConfirmField in shown ==> shown[ConfirmField] == ConfirmMismatch
    ensures NewField in shown ==> shown[NewField] == (if SameAsOld in errors then SameAsOld else NewTooShort)
  {
    var oldPass := if OldTooShort in errors then map[OldField := OldTooShort] else map[];
    var newPass := if SameAsOld in errors then map[NewField := SameAsOld]
      else if NewTooShort in errors then map[NewField := NewTooShort] else map[];
    var confirm := if ConfirmMismatch in errors then map[ConfirmField := ConfirmMismatch] else map[];
    oldPass + newPass + confirm
  }

  /**
   * The too-short message for the new password is on screen exactly when that password is
   * short and differs from the old one; when it equals the old one, the same-as-old message
   * replaces it.
   */
  lemma ShortNewPasswordShownUnlessSame(oldPass: string, newPass: string, confirm: string)
    ensures var shown := ShownErrors(Validate(oldPass, newPass, confirm));
      NewTooShort in shown.Values <==> |newPass| < PasswordMinLength && newPass != oldPass
  {
    var shown := ShownErrors(Validate(oldPass, newPass, confirm));
    if NewTooShort in shown.Values {
      var f :| f in shown && shown[f] == NewTooShort;
    }
    if |newPass| < PasswordMinLength && newPass != oldPass {
      assert shown[NewField] == NewTooShort;
    }
  }

  /** However many rules fail, at most three messages are on screen: one per layout. */
  lemma AtMostThreeMessages(oldPass: string, newPass: string, confirm: string)
    ensures |ShownErrors(Validate(oldPass, newPass, confirm))| <= 3
  {
    var keys := ShownErrors(Validate(oldPass, newPass, confirm)).Keys;
    var all := {OldField, NewField, ConfirmField};
    forall f | f in keys
      ensures f in all
    {
      assert f.OldField? || f.NewField? || f.ConfirmField?;
    }
    SubsetSize(keys, all);
  }

  /** When all four rules fail, the same-as-old message hides the too-short one. */
  lemma AllFourFailuresShowThree()
    ensures ShownErrors(Validate("", "", "x")) ==
      map[OldField := OldTooShort, NewField := SameAsOld, ConfirmField := ConfirmMismatch]
  {
    AllRulesCanFailTogether();
  }

  lemma SubsetSize<T>(a: set<T>, b: set<T>)
    requires a <= b
    ensures |a| <= |b|
  {
    if a != {} {
      var x :| x in a;
      SubsetSize(a - {x}, b - {x});
    }
  }

  /** What "Save" does: show the failed rules, or send the password change. */
  datatype ChangeAttempt = Invalid(errors: set<PasswordError>) | SendChange(oldPassword: string, newPassword: string)

  /**
   * `submit`: `safeText` reads each field as its trimmed text, or "" when there is none;
   * the request is built only when `validate` passes.
   */
  function Submit(oldText: Option<string>, newText: Option<string>, confirmText: Option<string>): (r: ChangeAttempt)
    ensures var o, n, c := TrimOrEmpty(oldText), TrimOrEmpty(newText), TrimOrEmpty(confirmText);
      && (r.SendChange? <==> Validate(o, n, c) == {})
      && (r.SendChange? ==> r.oldPassword == o && r.newPassword == n)
      && (r.Invalid? ==> r.errors == Validate(o, n, c) && r.errors != {})
  {
    var o, n, c := TrimOrEmpty(oldText), TrimOrEmpty(newText), TrimOrEmpty(confirmText);
    var errors := Validate(o, n, c);
    if errors == {} then SendChange(o, n) else Invalid(errors)
  }

  /**
   * A password change that is sent carries two trimmed passwords of at least eight
   * characters that differ, the new one equal to the trimmed confirmation.
   */
  lemma SentChangeIsWellFormed(oldText: Option<string>, newText: Option<string>, confirmText: Option<string>)
    requires Submit(oldText, newText, confirmText).SendChange?
    ensures var r := Submit(oldText, newText, confirmText);
      && IsTrimmed(r.oldPassword) && IsTrimmed(r.newPassword)
      && |r.oldPassword| >= PasswordMinLength && |r.newPassword| >= PasswordMinLength
      && r.newPassword != r.oldPassword
      && r.newPassword == TrimOrEmpty(confirmText)
  {
  }

  /** A missing field counts as empty, so it always fails its length rule. */
  lemma MissingFieldIsTooShort(newText: Option<string>, confirmText: Option<string>)
    ensures Submit(None, newText, confirmText).Invalid?
    ensures OldTooShort in Submit(None, newText, confirmText).errors
  {
  }

  /** Passwords that differ only in surrounding blanks count as the same password. */
  lemma BlanksDoNotMakeANewPassword(oldText: string, newText: string, confirmText: Option<string>)
    requires Trim(oldText) == Trim(newText)
    ensures Submit(Some(oldText), Some(newText), confirmText).Invalid?
    ensures SameAsOld in Submit(Some(oldText), Some(newText), confirmText).errors
  {
  }
}
