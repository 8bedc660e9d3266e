/**
 * src/app/context/profileContext.tsx: the profile provider, which mirrors the
 * authenticated user or loads the profile from the backend.
 */
module Profile {
  import opened Common
  import opened Web
  import Auth

  const DefaultError := "Failed to load profile"

  /** `err.response?.data?.error || "Failed to load profile"`. */
  function ProfileError(e: HttpError): (msg: string)
    ensures msg != ""
    ensures e.response.Some? && e.response.value.error != "" ==> msg == e.response.value.error
    ensures (e.response.None? || e.response.value.error == "") ==> msg == DefaultError
  {
    if e.response.Some? && e.response.value.error != "" then e.response.value.error else DefaultError
  }

  /** The state `fetchUserDetails` leaves. */
  datatype ProfileState = ProfileState(userDetails: Option<Auth.User>, isLoading: bool, error: Option<string>)

  /**
   * `fetchUserDetails` given the auth context's view and the outcome of the
   * profile GET (only consulted when authenticated without an auth user).
   */
  function FetchResult(s: ProfileState, isAuthenticated: bool, authUser: Option<Auth.User>,
                       reply: Reply<Auth.ProfileBody>): (r: ProfileState)
    ensures !r.isLoading
    ensures !isAuthenticated ==> r == s.(userDetails := None, isLoading := false)
    ensures isAuthenticated && authUser.Some? ==> r == s.(userDetails := authUser, isLoading := false)
    ensures isAuthenticated && authUser.None? && reply.Ok? ==>
              r.error == None && r.userDetails.Some? && r.userDetails.value.role != ""
    ensures isAuthenticated && authUser.None? && reply.Failed? ==>
              r.userDetails == None && r.error == Some(ProfileError(reply.error))
  {
    if !isAuthenticated then s.(userDetails := None, isLoading := false)
    else if authUser.Some? then s.(userDetails := authUser, isLoading := false)
    else match reply
      case Ok(body) =>
        var u := if body.user.Some? then body.user.value else body.top;
        ProfileState(Some(Auth.WithDefaultRole(u)), false, None)
      case Failed(e) => ProfileState(None, false, Some(ProfileError(e)))
  }

  /**
   * The loaded profile is `data.user` when present and the body itself
   * otherwise; every field is copied and only an empty role is defaulted.
   */
  lemma LoadedProfile(s: ProfileState, body: Auth.ProfileBody)
    ensures var r := FetchResult(s, true, None, Ok(body));
            && r.userDetails == Some(Auth.WithDefaultRole(if body.user.Some? then body.user.value else body.top))
            && (body.user.Some? ==> r.userDetails.value.(role := body.user.value.role) == body.user.value)
  {
  }

  /** `refreshProfile` is `fetchUserDetails`: running it twice against the same inputs changes nothing more. */
  lemma FetchIdempotent(s: ProfileState, isAuthenticated: bool, authUser: Option<Auth.User>, reply: Reply<Auth.ProfileBody>)
    ensures var r := FetchResult(s, isAuthenticated, authUser, reply);
            FetchResult(r, isAuthenticated, authUser, reply) == r
  {
  }

  /**
   * `isAdmin` follows the profile: without authentication it is false, and
   * when the auth context already has a user it agrees with that user's
   * `isAdmin`.
   */
  lemma IsAdminAgreesWithAuth(s: ProfileState, authUser: Option<Auth.User>, reply: Reply<Auth.ProfileBody>)
    ensures !Auth.HasAdminRole(FetchResult(s, false, authUser, reply).userDetails)
    ensures authUser.Some? ==>
      (Auth.HasAdminRole(FetchResult(s, true, authUser, reply).userDetails) <==> Auth.HasAdminRole(authUser))
  {
  }

  /** The `ProfileProvider` component's state. */
  class ProfileProvider {
    var userDetails: Option<Auth.User>
    var isLoading: bool
    var error: Option<string>

    /** First render: no details, loading, no error. */
    constructor ()
      ensures userDetails == None && isLoading && error == None
    {
      userDetails := None;
      isLoading := true;
      error := None;
    }

    function State(): ProfileState
      reads this
    {
      ProfileState(userDetails, isLoading, error)
    }

    /** `isAdmin`. */
    predicate IsAdmin()
      reads this
    {
      Auth.HasAdminRole(userDetails)
    }

    /** `fetchUserDetails` (and `refreshProfile`). */
    method FetchUserDetails(isAuthenticated: bool, authUser: Option<Auth.User>, reply: Reply<Auth.ProfileBody>)
      modifies this
      ensures State() == FetchResult(old(State()), isAuthenticated, authUser, reply)
    {
      if !isAuthenticated {
        userDetails := None;
        isLoading := false;
        return;
      }
      if authUser.Some? {
        userDetails := authUser;
        isLoading := false;
        return;
      }
      isLoading := true;
      error := None;
      match reply {
        case Ok(body) =>
          var userData := if body.user.Some? then body.user.value else body.top;
          userDetails := Some(Auth.WithDefaultRole(userData));
        case Failed(e) =>
          error := Some(ProfileError(e));
          userDetails := None;
      }
      isLoading := false;
    }
  }
}
