/**
 * The `useUser` hook (src/hooks/useUser.ts): the signed-in user's profile
 * and the flags derived from its role. The hook's state is a small object
 * whose fields `fetchUser` and the auth listener overwrite step by step.
 */
module UseUser {
  import opened Wrappers
  import opened Database

  /** What `supabase.auth.getUser()` answers. */
  datatype AuthAnswer = AuthFailure(message: string) | NoSession | Authenticated(authId: Id)

  /** The auth events the listener receives. */
  datatype AuthEvent = SignedIn | TokenRefreshed | SignedOut | OtherEvent

  /** The role flags of the hook's result. */
  datatype RoleFlags = RoleFlags(isAdmin: bool, isAdminOrSecretary: bool, isTechnician: bool)

  /** `role === 'admin'`, `role === 'admin' || role === 'secretary'`, `role === 'technician'`. */
  function Flags(role: Option<UserRole>): (f: RoleFlags)
    ensures f.isAdmin <==> role == Some(Admin)
    ensures f.isAdminOrSecretary <==> role == Some(Admin) || role == Some(Secretary)
    ensures f.isTechnician <==> role == Some(Technician)
  {
    RoleFlags(role == Some(Admin), role == Some(Admin) || role == Some(Secretary), role == Some(Technician))
  }

  /** The flags never contradict each other, and without a role all are off. */
  lemma FlagsConsistent(role: Option<UserRole>)
    ensures Flags(role).isAdmin ==> Flags(role).isAdminOrSecretary
    ensures !(Flags(role).isTechnician && Flags(role).isAdminOrSecretary)
    ensures role.None? ==> Flags(role) == RoleFlags(false, false, false)
    ensures role.Some? ==> Flags(role).isAdminOrSecretary != Flags(role).isTechnician
  {
    if role.Some? {
      match role.value
      case Admin =>
      case Secretary =>
      case Technician =>
    }
  }

  class UserState {
    var user: Option<User>
    var authUser: Option<Id>
    var isLoading: bool
    var error: Option<string>

    /** The hook's first render: nothing known yet, loading. */
    constructor()
      ensures user.None? && authUser.None? && isLoading && error.None?
    {
      user, authUser, isLoading, error := None, None, true, None;
    }

    /** `user?.role ?? null` */
    function Role(): (r: Option<UserRole>)
      reads this
      ensures r.None? <==> user.None?
      ensures r.Some? ==> r.value == user.value.role
    {
      if user.Some? then Some(user.value.role) else None
    }

    /**
     * `fetchUser`: with no session both users are cleared and no error is
     * set; an auth failure or a profile that cannot be read (`.single()`
     * on a missing row included) sets the error and clears the profile;
     * otherwise the profile is the `users` row of the session's user.
     * Loading is off at the end whatever happened.
     */
    method FetchUser(auth: AuthAnswer, users: map<Id, User>, profileFails: bool)
      modifies this
      ensures !isLoading
      ensures auth.AuthFailure? ==>
        user.None? && error == Some(auth.message) && authUser == old(authUser)
      ensures auth.NoSession? ==> user.None? && authUser.None? && error.None?
      ensures auth.Authenticated? ==> authUser == Some(auth.authId)
      ensures auth.Authenticated? && (profileFails || auth.authId !in users) ==>
        user.None? && error.Some?
      ensures auth.Authenticated? && !profileFails && auth.authId in users ==>
        user == Some(users[auth.authId]) && error.None?
    {
      isLoading := true;
      error := None;
      match auth {
        case AuthFailure(message) =>
          error := Some(message);
          user := None;
        case NoSession =>
          authUser := None;
          user := None;
        case Authenticated(id) =>
          authUser := Some(id);
          if profileFails || id !in users {
            error := Some("Erreur lors du chargement du profil");
            user := None;
          } else {
            user := Some(users[id]);
          }
      }
      isLoading := false;
    }

    /** The auth listener: sign-in and token refresh fetch again, sign-out clears both users. */
    method OnAuthStateChange(event: AuthEvent, auth: AuthAnswer, users: map<Id, User>, profileFails: bool)
      modifies this
      ensures event == SignedOut ==>
        user.None? && authUser.None? && isLoading == old(isLoading) && error == old(error)
      ensures event == OtherEvent ==>
        user == old(user) && authUser == old(authUser) && isLoading == old(isLoading) && error == old(error)
      ensures (event == SignedIn || event == TokenRefreshed) ==> !isLoading
      ensures ((event == SignedIn || event == TokenRefreshed) && auth.Authenticated?
                 && !profileFails && auth.authId in users) ==> user == Some(users[auth.authId])
    {
      match event {
        case SignedIn => FetchUser(auth, users, profileFails);
        case TokenRefreshed => FetchUser(auth, users, profileFails);
        case SignedOut =>
          user := None;
          authUser := None;
        case OtherEvent =>
      }
    }
  }
}
