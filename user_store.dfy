/**
 * The session store: the signed-in user's displayable profile, written by the
 * session check, login, registration, profile update and logout.
 * The store's own source file is not part of this model: `SetUser` replaces
 * the profile, `ClearUser` empties every field.
 */
module UserStore {
  import opened Wrappers
  import opened Http

  datatype Profile = Profile(id: string, firstName: string, lastName: string, emailAddress: string, username: string)

  const NoUser := Profile("", "", "", "", "")

  /** `isLoggedIn = !!emailAddress`. */
  predicate IsLoggedIn(p: Profile) {
    p.emailAddress != ""
  }

  class Store {
    var profile: Profile

    constructor ()
      ensures profile == NoUser && !IsLoggedIn(profile)
    {
      profile := NoUser;
    }

    method SetUser(p: Profile)
      modifies this
      ensures profile == p
    {
      profile := p;
    }

    /** `setUser` called with the four profile fields only: the id is kept. */
    method SetProfileFields(firstName: string, lastName: string, username: string, emailAddress: string)
      modifies this
      ensures profile == Profile(old(profile).id, firstName, lastName, emailAddress, username)
    {
      profile := profile.(firstName := firstName, lastName := lastName,
                          username := username, emailAddress := emailAddress);
    }

    method ClearUser()
      modifies this
      ensures profile == NoUser && !IsLoggedIn(profile)
    {
      profile := NoUser;
    }
  }

  /**
   * The session check the dashboard pages run on mount: `GET /auth/me`; the
   * returned user is stored on success, the store is cleared on failure.
   */
  method CheckAuthStatus(store: Store, response: Outcome<Profile>) returns (sent: Request)
    modifies store
    ensures sent == Request(Api, Get, "/auth/me", NoBody)
    ensures response.Succeeded? ==> store.profile == response.value
    ensures response.Failed? ==> store.profile == NoUser && !IsLoggedIn(store.profile)
  {
    sent := Request(Api, Get, "/auth/me", NoBody);
    if response.Succeeded? {
      store.SetUser(response.value);
    } else {
      store.ClearUser();
    }
  }

  /** A page that needs a session and has none after the check goes to the login page. */
  function LoginRedirect(checking: bool, p: Profile): (nav: Option<string>)
    ensures nav.Some? <==> !checking && !IsLoggedIn(p)
    ensures nav.Some? ==> nav.value == "/dashboard/login"
  {
    if !checking && !IsLoggedIn(p) then Some("/dashboard/login") else None
  }
}
