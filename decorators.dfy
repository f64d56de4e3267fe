/**
 * The resolver decorators: each wraps a resolver `f` in checks on the user
 * of the request, and either raises a `GraphQLError` or calls `f` and
 * returns what it returned. The resolver is a function of the request, so
 * "`f` is not called" shows as an outcome that does not depend on `f`.
 */
module Decorators {
  import opened Wrappers
  import opened Common
  import opened Permissions

  /** The message of the prebuilt decorators for an anonymous user. */
  const AuthenticationRequired: string := "Authentication is required"

  /** `login_required_msg(no_auth_msg)(f)` called on a request. */
  function LoginRequiredMsg<R>(noAuthMsg: string, f: Request -> R, req: Request): (r: Guarded<R>)
    ensures r.Granted? <==> req.user.isAuthenticated
    ensures r.Granted? ==> r.value == f(req)
    ensures r.Refused? ==> r.message == Some(noAuthMsg)
  {
    if req.user.isAuthenticated then Granted(f(req)) else Refused(Some(noAuthMsg))
  }

  /** An anonymous request is refused whatever the resolver would have done. */
  lemma LoginRequiredIgnoresResolver<R>(noAuthMsg: string, f: Request -> R, g: Request -> R, req: Request)
    requires !req.user.isAuthenticated
    ensures LoginRequiredMsg(noAuthMsg, f, req) == LoginRequiredMsg(noAuthMsg, g, req)
  {
  }

  /** `not_auth_msg or default`. */
  function OrDefault(msg: Option<string>, default: string): (r: string)
    ensures StringIsSet(msg) ==> r == msg.value
    ensures !StringIsSet(msg) ==> r == default
  {
    if StringIsSet(msg) then msg.value else default
  }

  /** `is_super_user_required_msg(no_auth_msg, not_auth_msg)(f)` called on a request. */
  function IsSuperUserRequiredMsg<R>(noAuthMsg: string, notAuthMsg: Option<string>, f: Request -> R, req: Request)
    : (r: Guarded<R>)
    ensures r.Granted? <==> req.user.isAuthenticated && req.user.isSuperuser
    ensures r.Granted? ==> r.value == f(req)
    ensures !req.user.isAuthenticated ==> r == Refused(Some(noAuthMsg))
    ensures req.user.isAuthenticated && !req.user.isSuperuser
            ==> r == Refused(Some(OrDefault(notAuthMsg, "Not Authorized")))
  {
    if !req.user.isAuthenticated then Refused(Some(noAuthMsg))
    else if !req.user.isSuperuser then Refused(Some(OrDefault(notAuthMsg, "Not Authorized")))
    else Granted(f(req))
  }

  /** `is_staff_required_msg(no_auth_msg, not_auth_msg)(f)`: a superuser who is also staff. */
  function IsStaffRequiredMsg<R>(noAuthMsg: string, notAuthMsg: Option<string>, f: Request -> R, req: Request)
    : (r: Guarded<R>)
    ensures r.Granted? <==> req.user.isAuthenticated && req.user.isSuperuser && req.user.isStaff
    ensures r.Granted? ==> r.value == f(req)
    ensures !req.user.isAuthenticated ==> r == Refused(Some(noAuthMsg))
    ensures req.user.isAuthenticated && !(req.user.isSuperuser && req.user.isStaff)
            ==> r == Refused(Some(OrDefault(notAuthMsg, "Not Authorised")))
  {
    if !req.user.isAuthenticated then Refused(Some(noAuthMsg))
    else if !req.user.isSuperuser || !req.user.isStaff then Refused(Some(OrDefault(notAuthMsg, "Not Authorised")))
    else Granted(f(req))
  }

  /**
   * The staff guard is the stricter one: whatever it lets through the
   * superuser guard lets through with the same result, and both refuse an
   * anonymous user with the same message.
   */
  lemma StaffGuardImpliesSuperUserGuard<R>(noAuthMsg: string, notAuthMsg: Option<string>, f: Request -> R, req: Request)
    ensures IsStaffRequiredMsg(noAuthMsg, notAuthMsg, f, req).Granted?
            ==> IsSuperUserRequiredMsg(noAuthMsg, notAuthMsg, f, req) == IsStaffRequiredMsg(noAuthMsg, notAuthMsg, f, req)
    ensures !req.user.isAuthenticated
            ==> IsSuperUserRequiredMsg(noAuthMsg, notAuthMsg, f, req) == IsStaffRequiredMsg(noAuthMsg, notAuthMsg, f, req)
  {
  }

  /** The three prebuilt decorators. */
  function LoginRequired<R>(f: Request -> R, req: Request): (r: Guarded<R>)
    ensures !req.user.isAuthenticated ==> r == Refused(Some("Authentication is required"))
    ensures r.Granted? <==> req.user.isAuthenticated
  {
    LoginRequiredMsg(AuthenticationRequired, f, req)
  }

  function IsSuperUserRequired<R>(f: Request -> R, req: Request): (r: Guarded<R>)
    ensures !req.user.isAuthenticated ==> r == Refused(Some("Authentication is required"))
    ensures req.user.isAuthenticated && !req.user.isSuperuser ==> r == Refused(Some("Not Authorized"))
  {
    IsSuperUserRequiredMsg(AuthenticationRequired, None, f, req)
  }

  function IsStaffRequired<R>(f: Request -> R, req: Request): (r: Guarded<R>)
    ensures !req.user.isAuthenticated ==> r == Refused(Some("Authentication is required"))
    ensures req.user.isAuthenticated && !(req.user.isSuperuser && req.user.isStaff) ==> r == Refused(Some("Not Authorised"))
  {
    IsStaffRequiredMsg(AuthenticationRequired, None, f, req)
  }

  /** The `permission_classes` argument: a list, a tuple, or anything else. */
  datatype PermissionClasses = ListOf(ps: seq<Provider>) | TupleOf(ps: seq<Provider>) | NotASequence

  const NotASequenceMessage: string := "permission_classes must be instance of `list` or `tuple` "

  /**
   * `permission_required(permission_classes)` at decoration time: the
   * providers of the decorator, or the failed assertion.
   */
  function PermissionRequired(classes: PermissionClasses): (r: Result<seq<Provider>, string>)
    ensures r.Err? <==> classes.NotASequence?
    ensures r.Err? ==> r.error == NotASequenceMessage
    ensures r.Ok? ==> r.value == classes.ps
  {
    match classes
    case ListOf(ps) => Ok(ps)
    case TupleOf(ps) => Ok(ps)
    case NotASequence => Err(NotASequenceMessage)
  }

  /** What a resolver can return, as the wrapper tells it apart after `maybe_queryset`. */
  datatype ResolverResult =
    | QuerySetResult(rows: seq<Record>)
    | ManagerResult(rows: seq<Record>)
    | ListResult(items: seq<Record>)
    | TupleResult(items: seq<Record>)
    | OtherResult(value: Value)

  /**
   * The object the wrapper checks: `qs.first()` of a non-empty QuerySet (a
   * manager is turned into its QuerySet first), or `qs[0]` of a non-empty
   * list or tuple; nothing otherwise.
   */
  function CheckedObject(result: ResolverResult): (o: Option<Record>)
    ensures o.None? <==> result.OtherResult? || (!result.OtherResult? && (if result.QuerySetResult? || result.ManagerResult? then result.rows else result.items) == [])
    ensures o.Some? ==> o.value == (if result.QuerySetResult? || result.ManagerResult? then result.rows[0] else result.items[0])
  {
    match result
    case QuerySetResult(rows) => if |rows| > 0 then Some(rows[0]) else None
    case ManagerResult(rows) => if |rows| > 0 then Some(rows[0]) else None
    case ListResult(items) => if |items| > 0 then Some(items[0]) else None
    case TupleResult(items) => if |items| > 0 then Some(items[0]) else None
    case OtherResult(_) => None
  }

  /** The wrapper `permission_required(ps)(f)` builds, called on a request. */
  function PermissionRequiredWrap(ps: seq<Provider>, allows: Policy, f: Request -> ResolverResult, req: Request)
    : (r: Guarded<ResolverResult>)
    ensures Verdict(ps, allows, req, ForRequest).Deny? ==> r == Refused(Verdict(ps, allows, req, ForRequest).message)
    ensures r.Granted? ==> r.value == f(req)
    ensures r.Granted? <==>
      && Verdict(ps, allows, req, ForRequest).Pass?
      && (CheckedObject(f(req)).Some? ==> Verdict(ps, allows, req, ForObject(CheckedObject(f(req)).value)).Pass?)
    ensures Verdict(ps, allows, req, ForRequest).Pass? && CheckedObject(f(req)).Some?
            && Verdict(ps, allows, req, ForObject(CheckedObject(f(req)).value)).Deny?
            ==> r == Refused(Verdict(ps, allows, req, ForObject(CheckedObject(f(req)).value)).message)
  {
    match Verdict(ps, allows, req, ForRequest)
    case Deny(m) => Refused(m)
    case Pass =>
      var result := f(req);
      match CheckedObject(result)
      case None => Granted(result)
      case Some(obj) =>
        match Verdict(ps, allows, req, ForObject(obj))
        case Deny(m) => Refused(m)
        case Pass => Granted(result)
  }

  /**
   * The class-level check comes first: a refusing provider refuses the call
   * whatever the resolver returns, with the message of the class check.
   */
  lemma ClassCheckPrecedesResolver(ps: seq<Provider>, allows: Policy, f: Request -> ResolverResult,
                                   g: Request -> ResolverResult, req: Request)
    requires Verdict(ps, allows, req, ForRequest).Deny?
    ensures PermissionRequiredWrap(ps, allows, f, req) == PermissionRequiredWrap(ps, allows, g, req)
  {
  }

  /** An empty result gets no object check: only the class check decides. */
  lemma EmptyResultNoObjectCheck(ps: seq<Provider>, allows: Policy, f: Request -> ResolverResult, req: Request)
    requires f(req) == QuerySetResult([]) || f(req) == ManagerResult([]) || f(req) == ListResult([]) || f(req) == TupleResult([])
    ensures PermissionRequiredWrap(ps, allows, f, req)
         == if Verdict(ps, allows, req, ForRequest).Pass? then Granted(f(req)) else Refused(Verdict(ps, allows, req, ForRequest).message)
  {
  }

  /**
   * Only the first element is checked: two results with the same first
   * element and the same kind get the same verdict.
   */
  lemma OnlyFirstElementChecked(ps: seq<Provider>, allows: Policy, f: Request -> ResolverResult,
                                g: Request -> ResolverResult, req: Request)
    requires f(req).ListResult? && g(req).ListResult? && |f(req).items| > 0 && |g(req).items| > 0
    requires f(req).items[0] == g(req).items[0]
    ensures PermissionRequiredWrap(ps, allows, f, req).Granted? <==> PermissionRequiredWrap(ps, allows, g, req).Granted?
  {
  }
}
