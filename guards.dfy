/**
 * The access decorators of frontend/views.py: `login_required`,
 * `policier_required`, `admin_required` and the `is_admin` test.
 */
module Guards {
  import opened Users

  /** The user a request comes from, as the session supplies it. */
  datatype Requester = Anonymous | Authenticated(id: UserId, role: Role)

  /** What a decorator does with a request: run the view, or redirect. */
  datatype Access = Granted | ToLogin | ToHome

  /** `login_required`: anonymous requests go to the login page. */
  function LoginRequired(req: Requester): (a: Access)
    ensures a == Granted <==> req.Authenticated?
    ensures a != Granted ==> a == ToLogin
  {
    if req.Anonymous? then ToLogin else Granted
  }

  /**
   * `policier_required`: login first, then officers only; any other
   * authenticated user is sent to the home page.
   */
  function PolicierRequired(req: Requester): (a: Access)
    ensures a == ToLogin <==> req.Anonymous?
    ensures a == Granted <==> req.Authenticated? && req.role == Policier
    ensures a == ToHome <==> req.Authenticated? && req.role != Policier
  {
    match req
    case Anonymous => ToLogin
    case Authenticated(_, role) => if role == Policier then Granted else ToHome
  }

  /** `admin_required`: login first, then administrators only. */
  function AdminRequired(req: Requester): (a: Access)
    ensures a == ToLogin <==> req.Anonymous?
    ensures a == Granted <==> req.Authenticated? && req.role == Admin
    ensures a == ToHome <==> req.Authenticated? && req.role != Admin
  {
    match req
    case Anonymous => ToLogin
    case Authenticated(_, role) => if role == Admin then Granted else ToHome
  }

  /**
   * `login_required` followed by `user_passes_test(is_admin)`: a failed test
   * also redirects to the login page.
   */
  function AdminTest(req: Requester): (a: Access)
    ensures a == Granted <==> req.Authenticated? && req.role == Admin
    ensures a != Granted ==> a == ToLogin
  {
    if req.Authenticated? && req.role == Admin then Granted else ToLogin
  }

  /** No request passes both role decorators. */
  lemma RoleGuardsExclusive(req: Requester)
    ensures !(PolicierRequired(req) == Granted && AdminRequired(req) == Granted)
  {
  }
}
