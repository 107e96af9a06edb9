/**
 * The password form: `isLoading` goes up on submit, a confirmation mismatch
 * is rejected without a request, otherwise one `PATCH /auth/password` with
 * the current and new password; `isLoading` comes down on every path.
 */
module UpdatePassword {
  import opened Wrappers
  import opened Http

  datatype Fields = Fields(currentPassword: string, newPassword: string, confirmPassword: string)

  /**
   * The gate: only equality of new password and confirmation is checked (two
   * empty strings pass); the confirmation is not sent.
   */
  function Submit(f: Fields): (r: SubmitOutcome)
    ensures r.ValidationError? <==> f.newPassword != f.confirmPassword
    ensures r.ValidationError? ==> r.message == "Passwords do not match"
    ensures r.ValidationError? || r.Send?
    ensures r.Send? ==> r.request == Request(Api, Patch, "/auth/password", PasswordBody(f.currentPassword, f.newPassword))
  {
    if f.newPassword != f.confirmPassword then
      ValidationError("Passwords do not match")
    else
      Send(Request(Api, Patch, "/auth/password", PasswordBody(f.currentPassword, f.newPassword)))
  }

  /** The `try`/`catch` outcome: a success toast and the profile page, or the fallback message. */
  function Settle(o: Outcome<()>): (done: Settled)
    ensures o.Succeeded? ==> done == Settled(Success("Password updated successfully!"), Some("/dashboard/profile"))
    ensures o.Failed? ==> done.nav.None? && done.notice.Failure?
                          && done.notice.text == MessageOr(o.error, "Failed to update password")
                          && done.notice.text != ""
  {
    match o
    case Succeeded(_) => Settled(Success("Password updated successfully!"), Some("/dashboard/profile"))
    case Failed(e) => Settled(Failure(MessageOr(e, "Failed to update password")), None)
  }

  class Page {
    var currentPassword: string
    var newPassword: string
    var confirmPassword: string
    var isLoading: bool

    function Form(): Fields
      reads this
    {
      Fields(currentPassword, newPassword, confirmPassword)
    }

    constructor ()
      ensures Form() == Fields("", "", "") && !isLoading
    {
      currentPassword, newPassword, confirmPassword := "", "", "";
      isLoading := false;
    }

    /**
     * The synchronous part of `handleSubmit`: `isLoading` is set, and cleared
     * again at once on a mismatch; it stays set while the request is in flight.
     */
    method Begin() returns (r: SubmitOutcome)
      modifies this`isLoading
      ensures r == Submit(Form())
      ensures isLoading <==> r.Send?
    {
      isLoading := true;
      r := Submit(Form());
      if r.ValidationError? {
        isLoading := false;
      }
    }

    /** The `finally` after the response: `isLoading` is cleared whatever happened. */
    method Finish(o: Outcome<()>) returns (done: Settled)
      modifies this`isLoading
      ensures !isLoading
      ensures done == Settle(o)
    {
      done := Settle(o);
      isLoading := false;
    }

    /**
     * A whole submit, with the network's answer as input: at most one request,
     * and `isLoading` false afterwards on the mismatch, success and failure paths.
     */
    method HandleSubmit(response: Outcome<()>) returns (sent: Option<Request>, done: Settled)
      modifies this`isLoading
      ensures !isLoading
      ensures Submit(Form()).ValidationError? ==> sent.None? && done == Settled(Failure("Passwords do not match"), None)
      ensures Submit(Form()).Send? ==> sent == Some(Submit(Form()).request) && done == Settle(response)
    {
      var r := Begin();
      if r.Send? {
        sent := Some(r.request);
        done := Finish(response);
      } else {
        sent := None;
        done := Settled(Failure(r.message), None);
      }
    }
  }
}
