/**
 * The registration form (the routed page and its unrouted duplicate share
 * this logic): six fields, a presence gate, a confirmation gate, one
 * `POST /auth/register`, and the reset and auto-login on success.
 */
module Register {
  import opened Http
  import opened UserStore

  datatype Fields = Fields(
    firstName: string,
    lastName: string,
    emailAddress: string,
    username: string,
    password: string,
    cpassword: string)

  const Blank := Fields("", "", "", "", "", "")

  predicate AllPresent(f: Fields) {
    f.firstName != "" && f.lastName != "" && f.emailAddress != ""
    && f.username != "" && f.password != "" && f.cpassword != ""
  }

  /**
   * `handleSubmit`: any empty field is a validation error; only then is the
   * confirmation compared; a valid form sends the five fields, without the
   * confirmation.
   */
  function Submit(f: Fields): (r: SubmitOutcome)
    ensures r.ValidationError? <==> !AllPresent(f)
    ensures r.ValidationError? ==> r.message == "Please provide all required fields"
    ensures r.PasswordMismatch? <==> AllPresent(f) && f.password != f.cpassword
    ensures r.Send? <==> AllPresent(f) && f.password == f.cpassword
    ensures r.Send? ==> r.request.client == Api && r.request.verb == Post && r.request.path == "/auth/register"
    ensures r.Send? ==> r.request.body.RegisterBody?
                        && r.request.body.firstName == f.firstName && r.request.body.lastName == f.lastName
                        && r.request.body.emailAddress == f.emailAddress && r.request.body.username == f.username
                        && r.request.body.password == f.password == f.cpassword
  {
    if !AllPresent(f) then
      ValidationError("Please provide all required fields")
    else if f.password != f.cpassword then
      PasswordMismatch
    else
      Send(Request(Api, Post, "/auth/register",
                   RegisterBody(f.firstName, f.lastName, f.emailAddress, f.username, f.password)))
  }

  /** `onError`: the failure toast carries the four-step server message; the form is kept and nothing navigates. */
  function OnError(e: HttpError): (n: Notice)
    ensures n.Failure?
    ensures n.text == DerivedMessage(e)
  {
    Failure(DerivedMessage(e))
  }

  /** The page's six state variables. */
  class Page {
    var firstName: string
    var lastName: string
    var emailAddress: string
    var username: string
    var password: string
    var cpassword: string

    function Form(): Fields
      reads this
    {
      Fields(firstName, lastName, emailAddress, username, password, cpassword)
    }

    constructor ()
      ensures Form() == Blank
    {
      firstName, lastName, emailAddress := "", "", "";
      username, password, cpassword := "", "", "";
    }

    /**
     * `onSuccess`: every field becomes "", the store holds the returned user
     * (`data.data`), and the page navigates to the dashboard.
     */
    method OnSuccess(user: Profile, store: Store) returns (nav: string)
      modifies this, store
      ensures Form() == Blank
      ensures store.profile == user
      ensures nav == "/dashboard"
    {
      firstName := "";
      lastName := "";
      emailAddress := "";
      username := "";
      password := "";
      cpassword := "";
      store.SetUser(user);
      nav := "/dashboard";
    }
  }
}
