/**
 * The login form (the routed page and its unrouted duplicate share this
 * logic): a presence gate on email and password, one `POST /auth/login`,
 * and the reset and store update on success.
 */
module Login {
  import opened Http
  import opened UserStore

  datatype Fields = Fields(emailAddress: string, password: string)

  const Blank := Fields("", "")

  /** `handleSubmit`: an empty email or password is rejected; otherwise the two fields are sent. */
  function Submit(f: Fields): (r: SubmitOutcome)
    ensures r.ValidationError? <==> f.emailAddress == "" || f.password == ""
    ensures r.ValidationError? ==> r.message == "Please provide all required fields"
    ensures r.ValidationError? || r.Send?
    ensures r.Send? ==> r.request == Request(Api, Post, "/auth/login", LoginBody(f.emailAddress, f.password))
  {
    if f.emailAddress == "" || f.password == "" then
      ValidationError("Please provide all required fields")
    else
      Send(Request(Api, Post, "/auth/login", LoginBody(f.emailAddress, f.password)))
  }

  /** `onError`: the failure toast carries the four-step server message; the form is kept and nothing navigates. */
  function OnError(e: HttpError): (n: Notice)
    ensures n.Failure?
    ensures n.text == DerivedMessage(e)
  {
    Failure(DerivedMessage(e))
  }

  class Page {
    var emailAddress: string
    var password: string

    function Form(): Fields
      reads this
    {
      Fields(emailAddress, password)
    }

    constructor ()
      ensures Form() == Blank
    {
      emailAddress, password := "", "";
    }

    /** `onSuccess`: both fields become "", the store holds `data.data`, navigation to the dashboard. */
    method OnSuccess(user: Profile, store: Store) returns (nav: string)
      modifies this, store
      ensures Form() == Blank
      ensures store.profile == user
      ensures nav == "/dashboard"
    {
      emailAddress := "";
      password := "";
      store.SetUser(user);
      nav := "/dashboard";
    }
  }
}
