/** The gate around the pages that need a signed-in user. */
module ProtectedRoute {
  import opened Common

  /** The state a `<Navigate>` passes along to the page it leads to. */
  datatype FromLocation = FromLocation(pathname: Option<string>)
  datatype LocationState = LocationState(from: Option<FromLocation>)

  datatype RouteView =
    | LoadingScreen
    | Redirect(path: string, replace: bool, state: Option<LocationState>)
    | Children

  function Gate(loading: bool, isAuthenticated: bool): (v: RouteView)
    ensures loading ==> v == LoadingScreen
    ensures !loading && !isAuthenticated ==> v == Redirect("/login", true, None)
    ensures v == Children <==> !loading && isAuthenticated
  {
    if loading then LoadingScreen
    else if !isAuthenticated then Redirect("/login", true, None)
    else Children
  }
}
