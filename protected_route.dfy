/** The guard around the signed-in pages. */
module ProtectedRoute {
  import opened Wrappers
  import opened Session

  const AuthPath: string := "/auth"

  datatype Location = Location(pathname: string, search: string, hash: string)

  datatype GuardOutcome =
    | LoadingScreen
    | Redirect(to: string, replace: bool, from: Location)
    | RenderOutlet

  /**
   * While loading: the loading screen, whoever the user is. Then, with no
   * user: replace the entry with /auth, remembering where the visit was
   * going. With a user: the child routes.
   */
  function Guard(isLoading: bool, user: Option<User>, location: Location): (r: GuardOutcome)
    ensures r.LoadingScreen? <==> isLoading
    ensures r.Redirect? <==> !isLoading && user.None?
    ensures r.RenderOutlet? <==> !isLoading && user.Some?
    ensures r.Redirect? ==> r.to == AuthPath && r.replace && r.from == location
  {
    if isLoading then LoadingScreen
    else if user.None? then Redirect(AuthPath, true, location)
    else RenderOutlet
  }
}
