/** The profile page: the password-change schema, the render gate and the submit handler (src/pages/profile.tsx). */
module Profile {
  import opened Wrappers
  import opened Session
  import opened ApiErrors
  import opened Toasts

  datatype PasswordValues = PasswordValues(currentPassword: string, newPassword: string, confirmPassword: string)

  datatype PasswordField = CurrentPassword | NewPassword | ConfirmPassword

  const EmptyValues := PasswordValues("", "", "")

  /**
   * The fields PasswordChangeSchema rejects: the current password is
   * required; the new one is required and at least 8 characters; the
   * confirmation is required and equal to the new one.
   */
  function SchemaErrors(v: PasswordValues): (errs: set<PasswordField>)
    ensures CurrentPassword in errs <==> v.currentPassword == ""
    ensures NewPassword in errs <==> |v.newPassword| < 8
    ensures ConfirmPassword in errs <==> v.confirmPassword == "" || v.confirmPassword != v.newPassword
  {
    (if v.currentPassword == "" then {CurrentPassword} else {})
    + (if v.newPassword == "" || |v.newPassword| < 8 then {NewPassword} else {})
    + (if v.confirmPassword == "" || v.confirmPassword != v.newPassword then {ConfirmPassword} else {})
  }

  /** A form the schema accepts has a current password and a confirmed new one of at least 8 characters. */
  lemma AcceptedForm(v: PasswordValues)
    requires SchemaErrors(v) == {}
    ensures v.currentPassword != "" && |v.newPassword| >= 8 && v.confirmPassword == v.newPassword
  {
  }

  /** The empty form fails on all three fields. */
  lemma EmptyFormRejected()
    ensures SchemaErrors(EmptyValues) == {CurrentPassword, NewPassword, ConfirmPassword}
  {
  }

  datatype View = Loading | NotAuthenticated | ProfileOf(user: User)

  /** The render gate: the loading screen until the store is initialized, then the profile only with a signed-in user. */
  function ViewFor(isInitialized: bool, isAuthenticated: bool, user: Option<User>): (v: View)
    ensures !isInitialized <==> v == Loading
    ensures v.ProfileOf? <==> isInitialized && isAuthenticated && user.Some?
    ensures v.ProfileOf? ==> v.user == user.value
  {
    if !isInitialized then Loading
    else if !isAuthenticated || user.None? then NotAuthenticated
    else ProfileOf(user.value)
  }

  /**
   * `disabled={isLoading || !isValid || isSubmitting}` on the submit button.
   * A disabled default button also blocks submitting with Enter, so the form
   * is submitted only through an enabled button.
   */
  predicate SubmitDisabled(isLoading: bool, isValid: bool, isSubmitting: bool) {
    isLoading || !isValid || isSubmitting
  }

  /** The reply of the password-change call: the server's message ("" when missing), or the error. */
  datatype ChangeReply = Changed(message: string) | Failed(error: ApiError)

  const ChangedText := "Password changed successfully"
  const FailedText := "Failed to change password"

  /** The password form's values and `isSubmitting`, and the page's `isLoading` flag. */
  class ProfilePage {
    var isLoading: bool
    var isSubmitting: bool
    var values: PasswordValues

    /**
     * Formik's `isSubmitting` and the page's `isLoading` are both set when
     * the handler starts and both cleared when it settles.
     */
    predicate Valid()
      reads this
    {
      isSubmitting == isLoading
    }

    constructor ()
      ensures Valid()
      ensures !isLoading && !isSubmitting && values == EmptyValues
    {
      isLoading := false;
      isSubmitting := false;
      values := EmptyValues;
    }

    /** Typing into the form. */
    method Edit(v: PasswordValues)
      modifies this
      ensures values == v && isLoading == old(isLoading) && isSubmitting == old(isSubmitting)
    {
      values := v;
    }

    /**
     * A press of the submit button. `isValid` is Formik's flag as the button
     * last rendered it; Formik's lifecycle for it is not modelled. Nothing
     * happens while the button is disabled. Otherwise Formik validates the
     * values again and runs the handler only when the schema passes, and the
     * handler sets `isLoading`: so no second change is sent while one is in
     * flight.
     */
    method StartSubmit(isValid: bool) returns (sent: bool)
      requires Valid()
      modifies this
      ensures Valid()
      ensures sent <==> !SubmitDisabled(old(isLoading), isValid, old(isSubmitting)) && SchemaErrors(values) == {}
      ensures old(isLoading) ==> !sent
      ensures values == old(values)
      ensures isLoading == (sent || old(isLoading)) && isSubmitting == (sent || old(isSubmitting))
    {
      if SubmitDisabled(isLoading, isValid, isSubmitting) {
        return false;
      }
      sent := SchemaErrors(values) == {};
      if sent {
        isSubmitting := true;
        isLoading := true;
      }
    }

    /**
     * The handler after the awaited call: a success toast and a reset form, or
     * an error toast with the form kept; `isLoading` is cleared either way,
     * and Formik clears `isSubmitting` once the handler has settled.
     */
    method FinishSubmit(reply: ChangeReply) returns (t: Toast)
      modifies this
      ensures Valid()
      ensures !isLoading && !isSubmitting
      ensures reply.Changed? ==> values == EmptyValues && t == Success(if reply.message != "" then reply.message else ChangedText)
      ensures reply.Failed? ==> values == old(values) && t == Error(ErrorMessage(reply.error, FailedText, FailedText))
      ensures t.text != ""
    {
      match reply {
        case Changed(message) =>
          t := Success(if message != "" then message else ChangedText);
          values := EmptyValues;
        case Failed(e) =>
          t := Error(ErrorMessage(e, FailedText, FailedText));
      }
      isLoading := false;
      isSubmitting := false;
    }
  }
}
