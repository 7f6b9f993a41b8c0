/** The route gate (`ProtectedRoute`): while the session is loading it
    shows a placeholder, without a user it redirects to the sign-in page
    remembering where the visitor was, and otherwise it renders the
    protected page. */
module ProtectedRoute {
  import opened Optional
  import AuthContext

  /** What the gate renders. */
  datatype Route =
    | Verifying                                             // the placeholder
    | Redirect(to: string, replace: bool, from: string)     // `<Navigate … replace />`
    | Outlet                                                // the protected page

  const SignInPath: string := "/signin"

  /** The gate's decision, loading first, then the user. */
  function Gate(isLoading: bool, user: Option<AuthContext.User>, location: string): (r: Route)
    ensures r == Verifying <==> isLoading
    ensures r.Redirect? <==> !isLoading && user.None?
    ensures r == Outlet <==> !isLoading && user.Some?
    ensures r.Redirect? ==> r.to == SignInPath && r.replace && r.from == location
  {
    if isLoading then Verifying
    else if user.None? then Redirect(SignInPath, true, location)
    else Outlet
  }

  /** The gate only ever sees the session a provider hands down. While
      loading the provider renders no children, so no gate exists; once
      it renders them the session is not loading. So under a provider the
      placeholder is never shown, and the gate redirects exactly when the
      provider holds no user. */
  lemma NoPlaceholderUnderProvider(p: AuthContext.AuthProvider, location: string)
    ensures p.Provided().None? <==> p.isLoading
    ensures p.Provided().Some? ==>
              var context := AuthContext.UseAuth(p.Provided());
              var r := Gate(context.session.isLoading, context.session.user, location);
              context.Context? && r != Verifying && (r.Redirect? <==> p.user.None?)
  {
  }

  /** A first visit: the provider starts with the browser's stored token,
      restores the session, and the gate then admits the visitor exactly
      when the stored token was restored, and otherwise sends them to sign
      in. */
  method FirstVisit(stored: Option<string>, decode: AuthContext.Decoder, now: int, location: string)
    returns (route: Route)
    ensures route == Outlet <==> AuthContext.Classify(stored, decode, now).Restored?
    ensures route != Outlet ==> route == Redirect(SignInPath, true, location)
  {
    var provider := new AuthContext.AuthProvider(stored);
    provider.RestoreSession(decode, now);
    var provided := provider.Provided();
    assert provided.Some?;
    var context := AuthContext.UseAuth(provided);
    route := Gate(context.session.isLoading, context.session.user, location);
  }
}
