/** The signed-in user and their role, as the authentication provider keeps
    them: every notification from the identity provider replaces the user,
    looks up the role in the `users` collection and ends the loading
    state. */
module Auth {
  import opened Wrappers

  datatype User = User(uid: string)

  /** The answer of the `users/<uid>` lookup: a record (whose `role` may be
      absent), no record, or a failed read. */
  datatype RoleLookup = Record(role: Option<string>) | NoRecord | LookupFailed

  /** The role a lookup sets, or None when a failed read sets nothing. */
  function RoleFrom(lookup: RoleLookup): (r: Option<Option<string>>)
    ensures lookup.Record? ==> r == Some(lookup.role)
    ensures lookup.NoRecord? ==> r == Some(None)
    ensures lookup.LookupFailed? ==> r.None?
  {
    match lookup
    case Record(role) => Some(role)
    case NoRecord => Some(None)
    case LookupFailed => None
  }

  class AuthProvider {
    var currentUser: Option<User>
    var userRole: Option<string>
    var loading: bool
    /** The user whose lookup the role came from (None after a sign-out or
        before any lookup settled). */
    ghost var roleFor: Option<User>

    constructor ()
      ensures currentUser.None? && userRole.None? && loading
      ensures roleFor.None?
    {
      currentUser := None;
      userRole := None;
      loading := true;
      roleFor := None;
    }

    /** Whether the provider renders its children. */
    function ChildrenShown(): (b: bool)
      reads this
      ensures b <==> !loading
    {
      !loading
    }

    /** The role on show was looked up for the user on show. */
    ghost predicate RoleCurrent()
      reads this
    {
      roleFor == currentUser
    }

    /** The synchronous part of a notification. A sign-out clears the role
        and ends loading at once. For a signed-in user only the user is set:
        the role and the loading flag wait for the awaited lookup. */
    method UserChanged(user: Option<User>)
      modifies this
      ensures currentUser == user
      ensures user.None? ==> userRole.None? && !loading && roleFor.None? && RoleCurrent()
      ensures user.Some? ==> userRole == old(userRole) && loading == old(loading) && roleFor == old(roleFor)
    {
      currentUser := user;
      if user.None? {
        userRole := None;
        roleFor := None;
        loading := false;
      }
    }

    /** The awaited lookup for `forUser` settles. A record or a missing
        record sets the role and ends loading; a failed read stops the
        handler and changes nothing. The user on show is left alone, even
        when a later notification has replaced `forUser`. */
    method RoleSettled(forUser: User, lookup: RoleLookup)
      modifies this
      ensures currentUser == old(currentUser)
      ensures lookup.Record? ==> userRole == lookup.role && !loading && roleFor == Some(forUser)
      ensures lookup.NoRecord? ==> userRole.None? && !loading && roleFor == Some(forUser)
      ensures lookup.LookupFailed? ==> userRole == old(userRole) && loading == old(loading) && roleFor == old(roleFor)
    {
      var role := RoleFrom(lookup);
      if role.Some? {
        userRole := role.value;
        roleFor := Some(forUser);
        loading := false;
      }
    }

    /** One notification whose lookup settles before the next one arrives:
        the user is set first, and a failed role read stops the handler
        there, leaving the role and the loading flag as they were. */
    method OnAuthStateChanged(user: Option<User>, lookup: RoleLookup)
      modifies this
      ensures currentUser == user
      ensures user.None? ==> userRole.None? && !loading
      ensures user.Some? && lookup.Record? ==> userRole == lookup.role && !loading
      ensures user.Some? && lookup.NoRecord? ==> userRole.None? && !loading
      ensures user.Some? && lookup.LookupFailed? ==> userRole == old(userRole) && loading == old(loading)
      ensures !lookup.LookupFailed? || user.None? ==> RoleCurrent()
    {
      UserChanged(user);
      if user.Some? {
        RoleSettled(user.value, lookup);
      }
    }
  }
}
