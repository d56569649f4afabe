/**
 * The security settings (`SecurityForms`): the change-password form and
 * its schema, and the two-factor enrolment dialog — enrol, verify, close,
 * disable — with the flags that disable each button while its request is
 * out. A request is split into its start (click) and its finish (answer).
 */
module SecurityForms {
  import opened Wrappers
  import opened Types
  import opened Ui

  const PasswordTooShort := "Password must be at least 6 characters."
  const PasswordsDiffer := "Passwords don't match."

  /** A schema issue and the field it is shown under. */
  datatype Issue = Issue(path: string, message: string)

  /**
   * `passwordSchema`: the length check on `newPassword`, then the object
   * refinement, reported on `confirmPassword`; the refinement runs even when
   * the length check fails.
   */
  function PasswordIssues(newPassword: string, confirmPassword: string): (r: seq<Issue>)
    ensures r == [] <==> |newPassword| >= 6 && newPassword == confirmPassword
    ensures Issue("newPassword", PasswordTooShort) in r <==> |newPassword| < 6
    ensures Issue("confirmPassword", PasswordsDiffer) in r <==> newPassword != confirmPassword
    ensures forall i :: i in r ==> i.path == "newPassword" || i.path == "confirmPassword"
  {
    (if |newPassword| < 6 then [Issue("newPassword", PasswordTooShort)] else [])
    + (if newPassword == confirmPassword then [] else [Issue("confirmPassword", PasswordsDiffer)])
  }

  /** The QR code and factor id the dialog shows while enrolment awaits verification. */
  datatype Enrollment = Enrollment(qrCode: string, factorId: string)

  /** What `enrollTwoFactorAuth()` answers. */
  datatype EnrollResult = EnrollFailed(error: string) | Enrolled(qrCode: string, id: string) | NoData

  class SecurityForms {
    /** The user's TOTP factor, if 2FA is on. */
    const totpFactor: Option<Factor>
    var newPassword: string
    var confirmPassword: string
    var enrollment: Option<Enrollment>
    var isEnrolling: bool
    var isVerifying: bool
    var isDisabling: bool
    var toasts: seq<Toast>

    constructor (totpFactor: Option<Factor>)
      ensures this.totpFactor == totpFactor
      ensures newPassword == "" && confirmPassword == "" && enrollment.None?
      ensures !isEnrolling && !isVerifying && !isDisabling && toasts == []
    {
      this.totpFactor := totpFactor;
      newPassword := "";
      confirmPassword := "";
      enrollment := None;
      isEnrolling := false;
      isVerifying := false;
      isDisabling := false;
      toasts := [];
    }

    /** The dialog is open exactly while there is enrolment data. */
    predicate DialogOpen()
      reads this
    {
      enrollment.Some?
    }

    /**
     * `handleSubmit(onPasswordSubmit)`: what reaches `updatePassword` —
     * the new password alone, and only when the schema has no issue.
     */
    method SubmitPassword() returns (sent: Option<string>)
      ensures sent.Some? <==> PasswordIssues(newPassword, confirmPassword) == []
      ensures sent.Some? ==> sent.value == newPassword && sent.value == confirmPassword
    {
      if PasswordIssues(newPassword, confirmPassword) == [] {
        sent := Some(newPassword);
      } else {
        sent := None;
      }
    }

    /** `updatePassword`'s answer: the form is reset only on success. */
    method PasswordAnswered(error: Option<string>)
      modifies this
      ensures enrollment == old(enrollment) && isEnrolling == old(isEnrolling)
      ensures isVerifying == old(isVerifying) && isDisabling == old(isDisabling)
      ensures error.Some? ==>
        && newPassword == old(newPassword) && confirmPassword == old(confirmPassword)
        && toasts == old(toasts) + [ErrorToast(error.value)]
      ensures error.None? ==>
        && newPassword == "" && confirmPassword == ""
        && toasts == old(toasts) + [SuccessToast("Your password has been updated.")]
    {
      if error.Some? {
        toasts := toasts + [ErrorToast(error.value)];
      } else {
        toasts := toasts + [SuccessToast("Your password has been updated.")];
        newPassword, confirmPassword := "", "";
      }
    }

    /** "Enable 2FA" (shown without a factor; disabled while enrolling). */
    method StartEnroll()
      requires totpFactor.None? && !isEnrolling
      modifies this
      ensures isEnrolling
      ensures enrollment == old(enrollment) && isVerifying == old(isVerifying) && isDisabling == old(isDisabling)
      ensures newPassword == old(newPassword) && confirmPassword == old(confirmPassword) && toasts == old(toasts)
    {
      isEnrolling := true;
    }

    /** `enrollTwoFactorAuth()`'s answer: new data opens the dialog; an error only toasts. */
    method FinishEnroll(result: EnrollResult)
      requires isEnrolling
      modifies this
      ensures !isEnrolling
      ensures isVerifying == old(isVerifying) && isDisabling == old(isDisabling)
      ensures newPassword == old(newPassword) && confirmPassword == old(confirmPassword)
      ensures match result
        case EnrollFailed(e) => enrollment == old(enrollment) && toasts == old(toasts) + [ErrorToast(e)]
        case Enrolled(q, id) => enrollment == Some(Enrollment(q, id)) && toasts == old(toasts)
        case NoData => enrollment == old(enrollment) && toasts == old(toasts)
    {
      match result {
        case EnrollFailed(e) =>
          toasts := toasts + [ErrorToast(e)];
        case Enrolled(q, id) =>
          enrollment := Some(Enrollment(q, id));
        case NoData =>
      }
      isEnrolling := false;
    }

    /** "Verify and Enable": sends the factor id from the hidden input. */
    method StartVerify() returns (factorId: string)
      requires enrollment.Some? && !isVerifying
      modifies this
      ensures enrollment == old(enrollment) && isEnrolling == old(isEnrolling) && isDisabling == old(isDisabling)
      ensures factorId == enrollment.value.factorId
      ensures isVerifying
      ensures newPassword == old(newPassword) && confirmPassword == old(confirmPassword) && toasts == old(toasts)
    {
      isVerifying := true;
      factorId := enrollment.value.factorId;
    }

    /** `verifyTwoFactorAuth`'s answer: success closes the dialog; an error keeps it open. */
    method FinishVerify(error: Option<string>)
      requires isVerifying
      modifies this
      ensures !isVerifying
      ensures isEnrolling == old(isEnrolling) && isDisabling == old(isDisabling)
      ensures newPassword == old(newPassword) && confirmPassword == old(confirmPassword)
      ensures error.Some? ==> enrollment == old(enrollment) && toasts == old(toasts) + [ErrorToast(error.value)]
      ensures error.None? ==> enrollment.None? && toasts == old(toasts) + [SuccessToast("2FA has been enabled.")]
    {
      if error.Some? {
        toasts := toasts + [ErrorToast(error.value)];
      } else {
        toasts := toasts + [SuccessToast("2FA has been enabled.")];
        enrollment := None;
      }
      isVerifying := false;
    }

    /** `onOpenChange(false)`: closing the dialog drops the enrolment data. */
    method CloseDialog()
      modifies this
      ensures enrollment.None?
      ensures isEnrolling == old(isEnrolling) && isVerifying == old(isVerifying) && isDisabling == old(isDisabling)
      ensures newPassword == old(newPassword) && confirmPassword == old(confirmPassword) && toasts == old(toasts)
    {
      enrollment := None;
    }

    /** `handleDisable`: nothing at all without a factor; otherwise the factor's id is sent. */
    method StartDisable() returns (factorId: Option<string>)
      requires !isDisabling
      modifies this
      ensures totpFactor.None? ==> factorId.None? && !isDisabling
      ensures totpFactor.Some? ==> factorId == Some(totpFactor.value.id) && isDisabling
      ensures enrollment == old(enrollment) && isEnrolling == old(isEnrolling) && isVerifying == old(isVerifying)
      ensures newPassword == old(newPassword) && confirmPassword == old(confirmPassword) && toasts == old(toasts)
    {
      if totpFactor.None? {
        return None;
      }
      isDisabling := true;
      factorId := Some(totpFactor.value.id);
    }

    /** `disableTwoFactorAuth`'s answer. */
    method FinishDisable(error: Option<string>)
      requires isDisabling
      modifies this
      ensures !isDisabling
      ensures enrollment == old(enrollment) && isEnrolling == old(isEnrolling) && isVerifying == old(isVerifying)
      ensures newPassword == old(newPassword) && confirmPassword == old(confirmPassword)
      ensures toasts == old(toasts) + [if error.Some? then ErrorToast(error.value) else SuccessToast("2FA has been disabled.")]
    {
      if error.Some? {
        toasts := toasts + [ErrorToast(error.value)];
      } else {
        toasts := toasts + [SuccessToast("2FA has been disabled.")];
      }
      isDisabling := false;
    }
  }

  /**
   * Enrol, then verify: the factor verified is the one just enrolled, and
   * a successful verification leaves the dialog closed and every flag down.
   */
  method EnrollThenVerify(form: SecurityForms, qrCode: string, id: string) returns (verified: string)
    requires form.totpFactor.None? && !form.isEnrolling && !form.isVerifying && !form.isDisabling
    modifies form
    ensures verified == id
    ensures !form.DialogOpen() && !form.isEnrolling && !form.isVerifying && !form.isDisabling
  {
    form.StartEnroll();
    form.FinishEnroll(Enrolled(qrCode, id));
    assert form.DialogOpen();
    verified := form.StartVerify();
    form.FinishVerify(None);
  }
}
