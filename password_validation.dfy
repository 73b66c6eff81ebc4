/** `isPasswordMismatch(password, newpassword, confirmpassword)`: despite its
    name, it answers whether a password change may go ahead. `None` stands for
    an argument that is `null` or `undefined`. */
module PasswordValidation {
  import opened Wrappers

  /** The shortest new password accepted. */
  const MinLength: nat := 8

  /** The reference condition for an acceptable change: a new password, confirmed
      exactly, different from the old one and at least `MinLength` long. */
  predicate AcceptableChange(password: Option<string>, newPassword: string, confirmPassword: string) {
    && newPassword == confirmPassword
    && password != Some(newPassword)
    && |newPassword| >= MinLength
  }

  /** Four guarded early returns, then acceptance. The answer is true exactly
      for an acceptable change. */
  function IsPasswordMismatch(password: Option<string>, newPassword: Option<string>,
                              confirmPassword: Option<string>): (ok: bool)
    ensures ok <==> newPassword.Some? && confirmPassword.Some?
                    && AcceptableChange(password, newPassword.value, confirmPassword.value)
  {
    if newPassword.None? || confirmPassword.None? then false
    else if newPassword != confirmPassword then false
    else if password == newPassword then false
    else if |newPassword.value| < MinLength then false
    else true
  }

  lemma MissingPasswordRejected(password: Option<string>, newPassword: Option<string>,
                                confirmPassword: Option<string>)
    requires newPassword.None? || confirmPassword.None?
    ensures !IsPasswordMismatch(password, newPassword, confirmPassword)
  {
  }

  lemma UnconfirmedPasswordRejected(password: Option<string>, newPassword: string, confirmPassword: string)
    requires newPassword != confirmPassword
    ensures !IsPasswordMismatch(password, Some(newPassword), Some(confirmPassword))
  {
  }

  lemma UnchangedPasswordRejected(password: string, confirmPassword: Option<string>)
    ensures !IsPasswordMismatch(Some(password), Some(password), confirmPassword)
  {
  }

  lemma ShortPasswordRejected(password: Option<string>, newPassword: string, confirmPassword: Option<string>)
    requires |newPassword| < MinLength
    ensures !IsPasswordMismatch(password, Some(newPassword), confirmPassword)
  {
  }

  /** A missing old password never blocks a change that is otherwise acceptable. */
  lemma MissingOldPasswordNeverBlocks(newPassword: string, confirmPassword: string)
    requires newPassword == confirmPassword && |newPassword| >= MinLength
    ensures IsPasswordMismatch(None, Some(newPassword), Some(confirmPassword))
  {
  }

  // The unit cases.

  lemma AllMissingCase()
    ensures !IsPasswordMismatch(None, None, None)
  {
  }

  lemma UnconfirmedCase()
    ensures !IsPasswordMismatch(Some("abc"), Some("abc"), Some("abc1"))
  {
  }

  lemma UnchangedCase()
    ensures !IsPasswordMismatch(Some("abc1"), Some("abc1"), Some("abc1"))
  {
  }

  lemma ShortCase()
    ensures !IsPasswordMismatch(Some("abc"), Some("abc1"), Some("abc1"))
  {
  }
}
