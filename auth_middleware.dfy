/**
 * The two session guards of src/middleware/authMiddleware.js. Nothing in the server
 * installs session middleware, so the session is an input the guards receive as is.
 */
module AuthMiddleware {
  import opened Wrappers
  import opened Js
  import opened Http

  /** `req.session.user`: the fields the guards and handlers read. */
  datatype SessionUser = SessionUser(id: JsVal, role: JsVal)

  /** `req.session`; its `user` is `None` when absent or falsy. */
  datatype Session = Session(user: Option<SessionUser>)

  /** A middleware either calls `next()` or answers with one response. */
  datatype GuardOutcome = Next | Halt(response: Response)

  /** `req.session && req.session.user`; a falsy or absent session is `None`. */
  predicate HasUser(session: Option<Session>) {
    session.Some? && session.value.user.Some?
  }

  /** The session user's role is the string 'admin' (strict equality). */
  predicate IsAdminSession(session: Option<Session>) {
    HasUser(session) && session.value.user.value.role == Str("admin")
  }

  const AuthRequired := Response(Unauthorized, "Authentication required")
  const AdminRequired := Response(Forbidden, "Admin privileges required")

  function EnsureAuthenticated(session: Option<Session>): (o: GuardOutcome)
    ensures o.Next? <==> HasUser(session)
    ensures o.Halt? ==> o.response == AuthRequired
  {
    if session.Some? && session.value.user.Some? then Next else Halt(AuthRequired)
  }

  function EnsureAdmin(session: Option<Session>): (o: GuardOutcome)
    ensures o.Next? <==> IsAdminSession(session)
    ensures o.Halt? ==> o.response == AdminRequired && o.response.status != Unauthorized
  {
    if session.Some? && session.value.user.Some? && session.value.user.value.role == Str("admin")
    then Next
    else Halt(AdminRequired)
  }

  /** Whoever passes the admin check also passes the authentication check. */
  lemma AdminPassesAuthentication(session: Option<Session>)
    ensures EnsureAdmin(session).Next? ==> EnsureAuthenticated(session).Next?
  {
  }

  /** Without any session the admin check still answers 403, never 401. */
  lemma AdminCheckWithoutSession()
    ensures EnsureAdmin(None) == Halt(AdminRequired)
    ensures EnsureAdmin(Some(Session(None))) == Halt(AdminRequired)
  {
  }
}
