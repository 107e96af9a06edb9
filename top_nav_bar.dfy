/**
 * The top bar: the avatar text (the user's initials, or "U" when nobody is
 * signed in) and logout, which ends the session whatever the server says.
 * Upper-casing is ASCII.
 */
module TopNavBar {
  import opened Http
  import opened UserStore

  predicate IsLower(c: char) {
    'a' <= c <= 'z'
  }

  function Upper(c: char): (u: char)
    ensures !IsLower(u)
    ensures !IsLower(c) ==> u == c
  {
    if IsLower(c) then (c as int - 32) as char else c
  }

  /** `s.toUpperCase()`. */
  function UpperString(s: string): (u: string)
    ensures |u| == |s|
    ensures forall i | 0 <= i < |s| :: u[i] == Upper(s[i])
    decreases |s|
  {
    if s == [] then [] else [Upper(s[0])] + UpperString(s[1..])
  }

  /** `s.slice(0, 2)`. */
  function Prefix2(s: string): (p: string)
    ensures |p| == if |s| < 2 then |s| else 2
    ensures p == s[..|p|]
  {
    if |s| < 2 then s else s[..2]
  }

  /**
   * `getUserInitials`: the first letters of both names, else the first two
   * letters of the one name present, else "NA"; always one or two
   * upper-case characters.
   */
  function Initials(firstName: string, lastName: string): (r: string)
    ensures firstName != "" && lastName != "" ==> r == [Upper(firstName[0]), Upper(lastName[0])]
    ensures firstName != "" && lastName == "" ==> r == UpperString(Prefix2(firstName))
    ensures firstName == "" && lastName != "" ==> r == UpperString(Prefix2(lastName))
    ensures firstName == "" && lastName == "" ==> r == "NA"
    ensures 1 <= |r| <= 2
    ensures forall i | 0 <= i < |r| :: !IsLower(r[i])
  {
    if firstName != "" && lastName != "" then UpperString([firstName[0], lastName[0]])
    else if firstName != "" then UpperString(Prefix2(firstName))
    else if lastName != "" then UpperString(Prefix2(lastName))
    else "NA"
  }

  /** The avatar: initials when logged in, "U" otherwise. */
  function AvatarText(p: Profile): (r: string)
    ensures !IsLoggedIn(p) ==> r == "U"
    ensures IsLoggedIn(p) ==> r == Initials(p.firstName, p.lastName)
  {
    if IsLoggedIn(p) then Initials(p.firstName, p.lastName) else "U"
  }

  /** "U" does not by itself mean logged out: a signed-in user named just "u" gets it too. */
  lemma AvatarUIsAmbiguous()
    ensures var p := Profile("1", "u", "", "u@example.org", "u");
            IsLoggedIn(p) && AvatarText(p) == "U"
  {
  }

  /**
   * The only signed-in users whose avatar reads "U" are those with a single
   * name that is the one letter "u" or "U".
   */
  lemma AvatarUMeansSingleLetterU(p: Profile)
    requires IsLoggedIn(p) && AvatarText(p) == "U"
    ensures (p.lastName == "" && (p.firstName == "u" || p.firstName == "U"))
         || (p.firstName == "" && (p.lastName == "u" || p.lastName == "U"))
  {
  }

  /** `handleLogout`: one `POST /auth/logout`; on success and on failure the user is cleared and `/` opens. */
  method HandleLogout(store: Store, response: Outcome<()>) returns (sent: Request, nav: string)
    modifies store
    ensures sent == Request(Api, Post, "/auth/logout", EmptyObject)
    ensures store.profile == NoUser && !IsLoggedIn(store.profile)
    ensures nav == "/"
  {
    sent := Request(Api, Post, "/auth/logout", EmptyObject);
    match response
    case Succeeded(_) =>
      store.ClearUser();
      nav := "/";
    case Failed(_) =>
      store.ClearUser();
      nav := "/";
  }
}
