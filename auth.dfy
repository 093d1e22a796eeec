/** The access middlewares (middlewares/auth.js) and the chains the routes
    build from them. */
module Auth {
  import opened Common
  import opened UserModel

  const LoginFirst := "Login first to access this resource"
  const SubscribersOnlyMessage := "Only active subscribers are allowed to access this resource"

  /** `isAuthenticated`, as far as the token cookie: a missing or empty
      token is refused with 401; otherwise the request goes on. */
  function IsAuthenticated(token: Option<string>): (r: Result<()>)
    ensures r.Err? <==> token == None || token == Some("")
    ensures r.Err? ==> r.failure == HttpError(401, LoginFirst)
  {
    if token.None? || token.value == "" then Err(HttpError(401, LoginFirst)) else Ok(())
  }

  /** `authorizeAdmin`: only an admin goes on; anyone else gets 403 naming
      their role. */
  function AuthorizeAdmin(u: User): (r: Result<()>)
    ensures r.Ok? <==> u.role == Admin
    ensures r.Err? ==> r.failure == HttpError(403, RoleName(u.role) + " is not allowed to access this resource")
  {
    if u.role != Admin then
      Err(HttpError(403, RoleName(u.role) + " is not allowed to access this resource"))
    else
      Ok(())
  }

  /** `authorizeSubscribers`: refused with 403 exactly when the status is
      not "active" and the user is not an admin. */
  function AuthorizeSubscribers(u: User): (r: Result<()>)
    ensures r.Err? <==> u.subscription.status != Some(Active) && u.role != Admin
    ensures r.Err? ==> r.failure == HttpError(403, SubscribersOnlyMessage)
  {
    if u.subscription.status != Some(Active) && u.role != Admin then
      Err(HttpError(403, SubscribersOnlyMessage))
    else
      Ok(())
  }

  /** The role checks a route may place after `isAuthenticated`. */
  datatype Guard = AdminOnly | SubscribersOnly

  function Check(g: Guard, u: User): Result<()> {
    match g
    case AdminOnly => AuthorizeAdmin(u)
    case SubscribersOnly => AuthorizeSubscribers(u)
  }

  /** Runs the role checks in order; the first refusal ends the chain. */
  function RunGuards(u: User, guards: seq<Guard>): (r: Result<()>)
    ensures r.Ok? <==> forall k :: 0 <= k < |guards| ==> Check(guards[k], u).Ok?
  {
    if guards == [] then Ok(())
    else match Check(guards[0], u)
      case Err(f) => Err(f)
      case Ok(_) => RunGuards(u, guards[1..])
  }

  /** A route's middleware chain: `isAuthenticated` first, then the role
      checks. `Ok` means the request reaches the route's handler; `u` is the
      user the decoded token names. */
  function Admit(token: Option<string>, u: User, guards: seq<Guard>): (r: Result<()>)
    ensures r.Ok? <==> (token.Some? && token.value != ""
                        && forall k :: 0 <= k < |guards| ==> Check(guards[k], u).Ok?)
    ensures IsAuthenticated(token).Err? ==> r == Err(HttpError(401, LoginFirst))
  {
    match IsAuthenticated(token)
    case Err(f) => Err(f)
    case Ok(_) => RunGuards(u, guards)
  }

  /** Without a token no chain reaches its handler, whatever the user and
      the role checks. */
  lemma MissingTokenIsRefused(u: User, guards: seq<Guard>)
    ensures Admit(None, u, guards) == Err(HttpError(401, LoginFirst))
  {
  }

  /** An admin passes the subscriber check whatever its subscription. */
  lemma AdminIsSubscriber(u: User)
    requires u.role == Admin
    ensures AuthorizeSubscribers(u).Ok?
  {
  }

  /** Whoever passes `authorizeAdmin` passes `authorizeSubscribers`. */
  lemma AdminCheckImpliesSubscriberCheck(u: User)
    ensures AuthorizeAdmin(u).Ok? ==> AuthorizeSubscribers(u).Ok?
  {
  }

  /** An authenticated admin reaches the handler of every route, whatever
      role checks it carries. */
  lemma {:induction false} AdminReachesEveryHandler(token: string, u: User, guards: seq<Guard>)
    requires token != "" && u.role == Admin
    ensures Admit(Some(token), u, guards) == Ok(())
  {
    if guards != [] {
      AdminReachesEveryHandler(token, u, guards[1..]);
    }
  }

  /** The first refusal in a chain is the one the client sees. */
  lemma {:induction false} FirstRefusalWins(u: User, guards: seq<Guard>, k: nat)
    requires k < |guards| && Check(guards[k], u).Err?
    requires forall j :: 0 <= j < k ==> Check(guards[j], u).Ok?
    ensures RunGuards(u, guards) == Check(guards[k], u)
  {
    if k > 0 {
      FirstRefusalWins(u, guards[1..], k - 1);
    }
  }
}
