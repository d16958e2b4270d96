/** The dashboard page: a spinner while the session or the role is loading,
    nothing (and a redirect to `/login`) without a user, and otherwise one
    panel per matching role test. */
module Dashboard {
  import opened Common

  datatype Panel = SuperuserDashboard | AdminDashboard | UserDashboard | NoRoleAssigned

  datatype View = Spinner | Nothing | Panels(panels: seq<Panel>)

  /** The effect: navigate to `/login` once loading is done and there is no user. */
  predicate RedirectsToLogin(authLoading: bool, hasUser: bool) {
    !authLoading && !hasUser
  }

  function Render(authLoading: bool, roleLoading: bool, hasUser: bool, role: Option<Role>): (v: View)
    ensures authLoading || roleLoading ==> v == Spinner
    ensures !authLoading && !roleLoading && !hasUser ==> v == Nothing
    ensures v.Panels? ==> |v.panels| <= 1
    ensures v.Panels? ==> (v.panels == [SuperuserDashboard] <==> role == Some(Superuser))
    ensures v.Panels? ==> (v.panels == [AdminDashboard] <==> role == Some(Admin))
    ensures v.Panels? ==> (v.panels == [UserDashboard] <==> role == Some(User))
    ensures v.Panels? ==> (v.panels == [NoRoleAssigned] <==> role == None)
    ensures v.Panels? <==> !authLoading && !roleLoading && hasUser
  {
    if authLoading || roleLoading then Spinner
    else if !hasUser then Nothing
    else
      var shown :=
        (if role == Some(Superuser) then [SuperuserDashboard] else [])
        + (if role == Some(Admin) then [AdminDashboard] else [])
        + (if role == Some(User) then [UserDashboard] else [])
        + (if role == None then [NoRoleAssigned] else []);
      assert role == Some(Superuser) ==> shown == [SuperuserDashboard];
      assert role == Some(Admin) ==> shown == [AdminDashboard];
      assert role == Some(User) ==> shown == [UserDashboard];
      assert role == Some(Supervisor) ==> shown == [];
      assert role == None ==> shown == [NoRoleAssigned];
      Panels(shown)
  }

  /** A supervisor, a valid role in the database, matches no test and sees an empty page. */
  lemma SupervisorSeesNothing(authLoading: bool, roleLoading: bool)
    requires !authLoading && !roleLoading
    ensures Render(authLoading, roleLoading, true, Some(Supervisor)) == Panels([])
  {
  }

  /** The redirect ignores `roleLoading`: without a user it fires under the
      spinner while the role is still loading, and otherwise on an empty page;
      an empty page always comes with the redirect. */
  lemma RedirectOnlyWithoutUser(authLoading: bool, roleLoading: bool, hasUser: bool, role: Option<Role>)
    ensures RedirectsToLogin(authLoading, hasUser) ==>
              Render(authLoading, roleLoading, hasUser, role) == (if roleLoading then Spinner else Nothing)
    ensures Render(authLoading, roleLoading, hasUser, role) == Nothing ==> RedirectsToLogin(authLoading, hasUser)
  {
  }
}
