/** The identity provider as the application sees it: the signed-in caller
    (`currentUser()`, `useUser()`) and the profile returned by a user lookup
    (`clerkClient().users.getUser(id)`), which may fail. */
module Identity {
  import opened Common

  /** The caller: subject id and `publicMetadata.role`. */
  datatype User = User(id: string, role: Option<string>)

  /** The profile fields used to name an author. */
  datatype Profile = Profile(firstName: Option<string>, fullName: Option<string>, emails: seq<string>)

  /** Placeholder author name of the post routes (Persian for "unknown email"). */
  const UnknownEmail: string := "ایمیل نامشخص"

  /** Placeholder author name of the search route. */
  const UnknownEmailSearch: string := "Unknown email"

  /** `user.publicMetadata?.role === 'admin'`. */
  predicate IsAdmin(u: User)
    ensures IsAdmin(u) ==> u.role.Some? && u.role.value == "admin"
    ensures u.role.None? ==> !IsAdmin(u)
  {
    u.role == Some("admin")
  }

  /** `emailAddresses[0]?.emailAddress`. */
  function PrimaryEmail(p: Profile): (r: Option<string>)
    ensures r.Some? <==> |p.emails| > 0
    ensures r.Some? ==> r.value == p.emails[0]
  {
    if |p.emails| > 0 then Some(p.emails[0]) else None
  }

  /** The author name of the posts, top-posts, user-posts and favorites
      routes: first name, else full name, else first email address, else the
      placeholder; a failed lookup (`None`) gives the placeholder. */
  function AuthorName(lookup: Option<Profile>): (name: string)
    ensures name != ""
    ensures lookup.None? ==> name == UnknownEmail
  {
    match lookup
    case None => UnknownEmail
    case Some(p) =>
      if Truthy(p.firstName) then p.firstName.value
      else if Truthy(p.fullName) then p.fullName.value
      else if |p.emails| > 0 && p.emails[0] != "" then p.emails[0]
      else UnknownEmail
  }

  /** The search route's author name: first email address, else
      "Unknown email", also when the lookup fails. */
  function EmailName(lookup: Option<Profile>): (name: string)
    ensures name != ""
    ensures lookup.Some? && Truthy(PrimaryEmail(lookup.value)) ==> name == lookup.value.emails[0]
    ensures !(lookup.Some? && Truthy(PrimaryEmail(lookup.value))) ==> name == UnknownEmailSearch
  {
    match lookup
    case None => UnknownEmailSearch
    case Some(p) => if |p.emails| > 0 && p.emails[0] != "" then p.emails[0] else UnknownEmailSearch
  }

  /** The fallback chain is `firstName || fullName || email || placeholder`. */
  lemma AuthorNameIsFirstTruthy(p: Profile)
    ensures AuthorName(Some(p)) == FirstTruthy([p.firstName, p.fullName, PrimaryEmail(p)], UnknownEmail)
  {
    var c := [p.firstName, p.fullName, PrimaryEmail(p)];
    assert c[1..] == [p.fullName, PrimaryEmail(p)];
    assert c[1..][1..] == [PrimaryEmail(p)];
    assert c[1..][1..][1..] == [];
    assert FirstTruthy(c[1..][1..][1..], UnknownEmail) == UnknownEmail;
    assert FirstTruthy(c[1..][1..], UnknownEmail)
        == if Truthy(PrimaryEmail(p)) then p.emails[0] else UnknownEmail;
    assert FirstTruthy(c[1..], UnknownEmail)
        == if Truthy(p.fullName) then p.fullName.value else FirstTruthy(c[1..][1..], UnknownEmail);
  }
}
