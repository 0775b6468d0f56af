/** The route guard: what a protected route shows for a given session. */
module ProtectedRoute {
  import opened Js
  import opened AuthContext

  /** The spinner, a replacing navigation, or the wrapped children. */
  datatype Decision = Spinner | Redirect(to: string) | Render

  /** The guard's checks in priority order: loading, then the user, then
      the founder flag. `isFounder` is taken as an input; the session
      provider does not supply it, so as wired it reads as falsy. */
  function Decide(loading: bool, user: Option<User>, requireFounder: bool, isFounder: bool): (d: Decision)
    ensures d == Spinner <==> loading
    ensures d == Redirect("/") <==> !loading && user.None?
    ensures d == Redirect("/dashboard") <==> !loading && user.Some? && requireFounder && !isFounder
    ensures d == Render <==> !loading && user.Some? && (!requireFounder || isFounder)
  {
    if loading then Spinner
    else if user.None? then Redirect("/")
    else if requireFounder && !isFounder then Redirect("/dashboard")
    else Render
  }

  /** `requireFounder` defaults to false: on an unflagged route every
      logged-in user, founder or not, sees the children. */
  lemma UnflaggedRouteRenders(user: User, isFounder: bool)
    ensures Decide(false, Some(user), false, isFounder) == Render
  {
  }

  /** After the startup check the guard renders (or sends a non-founder to
      the dashboard) exactly when a session was stored, and otherwise
      sends the visitor to the entry page. */
  lemma GuardAfterRestore(items: map<string, string>, requireFounder: bool, isFounder: bool)
    ensures var t := Restored(InitialSession, items);
      Decide(t.loading, t.user, requireFounder, isFounder)
        == if !HasStoredSession(items) then Redirect("/")
           else if requireFounder && !isFounder then Redirect("/dashboard")
           else Render
  {
  }

  /** Once loaded, a logged-out session is always sent to the entry page. */
  lemma GuardAfterLogout(s: Session, requireFounder: bool, isFounder: bool)
    requires !s.loading
    ensures var t := LoggedOut(s); Decide(t.loading, t.user, requireFounder, isFounder) == Redirect("/")
  {
  }
}
