/** composables/useAuth.ts: the role and permission flags and the display name the
    pages derive from the authentication store's state. */
module UseAuth {
  import opened Common

  /** The user record of the store, with what the flags read of it. The declared
      User type has no `role`, so it may be absent. */
  datatype User = User(id: string, email: string, username: Option<string>, firstName: Option<string>,
                       role: Option<string>)

  /** The store's state: `isAuthenticated` (a session flag and a token) and `user`. */
  datatype AuthState = AuthState(isAuthenticated: bool, user: Option<User>)

  predicate HasRole(a: AuthState, role: string) {
    a.isAuthenticated && a.user.Some? && a.user.value.role == Some(role)
  }

  predicate IsAdmin(a: AuthState) { HasRole(a, "ADMIN") }
  predicate IsModerator(a: AuthState) { HasRole(a, "MODERATOR") }
  predicate IsUser(a: AuthState) { HasRole(a, "USER") }

  predicate CanManageForms(a: AuthState) { IsAdmin(a) || IsModerator(a) }
  predicate CanCreateForms(a: AuthState) { IsAdmin(a) }
  predicate CanViewAdminPanel(a: AuthState) { IsAdmin(a) || IsModerator(a) }

  /** At most one role flag holds; none holds without authentication. */
  lemma RoleFlagsExclusive(a: AuthState)
    ensures !(IsAdmin(a) && IsModerator(a)) && !(IsAdmin(a) && IsUser(a)) && !(IsModerator(a) && IsUser(a))
    ensures !a.isAuthenticated ==> !IsAdmin(a) && !IsModerator(a) && !IsUser(a)
    ensures a.user.None? ==> !IsAdmin(a) && !IsModerator(a) && !IsUser(a)
  {
  }

  /** Managing forms and the admin panel go together and are open to administrators
      and moderators; creating forms only to administrators; a plain user has none. */
  lemma PermissionsByRole(a: AuthState)
    ensures CanManageForms(a) <==> CanViewAdminPanel(a)
    ensures CanCreateForms(a) ==> CanManageForms(a)
    ensures IsModerator(a) ==> CanManageForms(a) && !CanCreateForms(a)
    ensures IsUser(a) ==> !CanManageForms(a) && !CanCreateForms(a) && !CanViewAdminPanel(a)
  {
    RoleFlagsExclusive(a);
  }

  /** userDisplayName: null without a user, else the first truthy of first name and
      user name, falling back to the e-mail address as it is. */
  function UserDisplayName(a: AuthState): (r: Option<string>)
    ensures r.None? <==> a.user.None?
    ensures r.Some? && a.user.value.firstName.Some? && a.user.value.firstName.value != "" ==>
              r.value == a.user.value.firstName.value
    ensures r.Some? && (a.user.value.firstName.None? || a.user.value.firstName.value == "") ==>
              r.value == OrElse(a.user.value.username, a.user.value.email)
  {
    match a.user
    case None => None
    case Some(u) => Some(OrElse(u.firstName, OrElse(u.username, u.email)))
  }

  /** The display name is always one of the user's own names or the e-mail. */
  lemma DisplayNameIsOwn(a: AuthState)
    requires a.user.Some?
    ensures var n := UserDisplayName(a).value; var u := a.user.value;
            Some(n) == u.firstName || Some(n) == u.username || n == u.email
  {
  }
}
