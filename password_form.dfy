/**
 * The change-password form check: each of the three fields gets its own
 * error (or none), and the form is valid exactly when no field has one.
 * The messages are the translation keys' meanings, not their text.
 */
module PasswordForm {
  /** The shortest accepted new password. */
  const MinPasswordLength := 6

  datatype PasswordFormInput = PasswordFormInput(currentPassword: string, newPassword: string, confirmPassword: string)

  /** A field's message; `NoError` is the empty string the record starts with. */
  datatype FieldError =
    | NoError
    | EnterCurrentPassword
    | EnterNewPassword
    | PasswordMinLength
    | ConfirmNewPassword
    | PasswordMismatch

  datatype PasswordErrors = PasswordErrors(currentPassword: FieldError, newPassword: FieldError, confirmPassword: FieldError)

  /**
   * `validatePasswordForm`: starts from three empty messages and sets each
   * field's by its own rule. The confirmation is compared with the new
   * password whenever it is filled in, even when the new password is too
   * short, so both errors can show at once. The form is valid exactly when
   * all three messages are empty, which is when the current password is
   * filled in, the new one has at least six characters and the confirmation
   * repeats it.
   */
  method ValidatePasswordForm(form: PasswordFormInput) returns (errors: PasswordErrors, valid: bool)
    ensures errors.currentPassword == (if form.currentPassword == "" then EnterCurrentPassword else NoError)
    ensures errors.newPassword == EnterNewPassword <==> form.newPassword == ""
    ensures errors.newPassword == PasswordMinLength <==> 0 < |form.newPassword| < MinPasswordLength
    ensures errors.newPassword == NoError <==> |form.newPassword| >= MinPasswordLength
    ensures errors.confirmPassword == ConfirmNewPassword <==> form.confirmPassword == ""
    ensures errors.confirmPassword == PasswordMismatch <==> form.confirmPassword != "" && form.confirmPassword != form.newPassword
    ensures errors.confirmPassword == NoError <==> form.confirmPassword != "" && form.confirmPassword == form.newPassword
    ensures valid <==> errors == PasswordErrors(NoError, NoError, NoError)
    ensures valid <==> form.currentPassword != "" && |form.newPassword| >= MinPasswordLength && form.confirmPassword == form.newPassword
  {
    errors := PasswordErrors(NoError, NoError, NoError);

    if form.currentPassword == "" {
      errors := errors.(currentPassword := EnterCurrentPassword);
    }

    if form.newPassword == "" {
      errors := errors.(newPassword := EnterNewPassword);
    } else if |form.newPassword| < MinPasswordLength {
      errors := errors.(newPassword := PasswordMinLength);
    }

    if form.confirmPassword == "" {
      errors := errors.(confirmPassword := ConfirmNewPassword);
    } else if form.newPassword != form.confirmPassword {
      errors := errors.(confirmPassword := PasswordMismatch);
    }

    valid := !(errors.currentPassword != NoError || errors.newPassword != NoError || errors.confirmPassword != NoError);
  }
}
