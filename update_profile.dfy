/**
 * The profile form: starts from the session store, rejects empty fields,
 * sends the four profile fields with `PATCH /users/profile`, writes the
 * answer to the store and later signs the user out; a failure offers a retry
 * of the very same request.
 */
module UpdateProfile {
  import opened Wrappers
  import opened Http
  import opened UserStore

  datatype Fields = Fields(firstName: string, lastName: string, username: string, emailAddress: string)

  /** The request the mutation sends for the given variables. */
  function ProfileRequest(v: Fields): (q: Request)
    ensures q.client == Api && q.verb == Patch && q.path == "/users/profile"
    ensures q.body.ProfileBody? && q.body.firstName == v.firstName && q.body.lastName == v.lastName
            && q.body.username == v.username && q.body.emailAddress == v.emailAddress
  {
    Request(Api, Patch, "/users/profile", ProfileBody(v.firstName, v.lastName, v.username, v.emailAddress))
  }

  /** `handleSubmit`: any empty field is rejected; otherwise exactly the four fields are sent. */
  function Submit(f: Fields): (r: SubmitOutcome)
    ensures r.ValidationError? <==> f.firstName == "" || f.lastName == "" || f.username == "" || f.emailAddress == ""
    ensures r.ValidationError? ==> r.message == "All fields are required"
    ensures r.ValidationError? || r.Send?
    ensures r.Send? ==> r.request == ProfileRequest(f)
  {
    if f.firstName == "" || f.lastName == "" || f.username == "" || f.emailAddress == "" then
      ValidationError("All fields are required")
    else
      Send(ProfileRequest(f))
  }

  /** What `onError` shows: the server message, the error's message, or a fixed text; and a retry. */
  datatype ErrorToast = ErrorToast(message: string, retry: Request)

  function OnError(e: HttpError, variables: Fields): (r: ErrorToast)
    ensures r.message != ""
    ensures r.message == MessageOr(e, "Failed to update profile")
    ensures r.retry == ProfileRequest(variables)
  {
    ErrorToast(MessageOr(e, "Failed to update profile"), ProfileRequest(variables))
  }

  /** The retry action re-issues exactly the request the failed submit sent. */
  lemma RetryRepeatsRequest(f: Fields, e: HttpError)
    requires Submit(f).Send?
    ensures OnError(e, f).retry == Submit(f).request
  {
  }

  class Page {
    var firstName: string
    var lastName: string
    var username: string
    var emailAddress: string

    function Form(): Fields
      reads this
    {
      Fields(firstName, lastName, username, emailAddress)
    }

    /** The fields start as the store's first name, last name, username and email. */
    constructor (store: Store)
      ensures Form() == Fields(store.profile.firstName, store.profile.lastName,
                               store.profile.username, store.profile.emailAddress)
    {
      firstName := store.profile.firstName;
      lastName := store.profile.lastName;
      username := store.profile.username;
      emailAddress := store.profile.emailAddress;
    }
  }

  /** `onSuccess`: a "Profile updated!" toast, and the store takes the four returned fields (its id is kept). */
  method OnSuccess(returned: Fields, store: Store) returns (notice: Notice)
    modifies store
    ensures notice == Success("Profile updated!")
    ensures store.profile == Profile(old(store.profile).id, returned.firstName, returned.lastName,
                                     returned.emailAddress, returned.username)
  {
    notice := Success("Profile updated!");
    store.SetProfileFields(returned.firstName, returned.lastName, returned.username, returned.emailAddress);
  }

  /** The delayed step of `onSuccess`: the store is cleared and the login page opens. */
  method AfterDelay(store: Store) returns (nav: string)
    modifies store
    ensures store.profile == NoUser && !IsLoggedIn(store.profile)
    ensures nav == "/dashboard/login"
  {
    store.ClearUser();
    nav := "/dashboard/login";
  }
}
