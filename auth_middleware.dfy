/**
 * The request guards of the backend (backend/app/middleware/auth.py): `token_required` and
 * `roles_required` decide between an error reply and a call of the wrapped view. Token
 * verification and the database lookup are one abstract input, the view's run is another.
 */
module AuthMiddleware {
  import opened Js

  /** The fields of the looked-up user the guards use. */
  datatype DbUser = DbUser(id: int, role: string)

  /**
   * Verifying the token, reading its identity, converting it to an int and looking the user up:
   * one of these raised, or the lookup completed with a user or with none.
   */
  datatype Lookup = Raised | Completed(user: Option<DbUser>)

  /** What the wrapped view did when called with `current_user`. */
  datatype ViewRun<R> = Returned(value: R) | ViewRaised

  /** The reply: a JSON error with its status, or whatever the view returned. */
  datatype Response<R> = JsonError(status: int, message: string) | FromView(value: R)

  /** The reply, and the users the view was called with, in order. */
  datatype Outcome<R> = Outcome(response: Response<R>, calls: seq<DbUser>)

  const InvalidToken := "Invalid or expired token"
  const UserNotFound := "User not found"

  function RoleNotAuthorized(role: string): string {
    "Role '" + role + "' is not authorized"
  }

  /** Calling the view inside the guard's `try`: an exception it raises becomes the 401 reply. */
  function CallView<R>(u: DbUser, view: DbUser -> ViewRun<R>): Outcome<R> {
    match view(u)
    case Returned(v) => Outcome(FromView(v), [u])
    case ViewRaised => Outcome(JsonError(401, InvalidToken), [u])
  }

  /** `token_required(f)`: 401 on an exception or a missing user, otherwise one call of the view. */
  function TokenRequired<R>(lookup: Lookup, view: DbUser -> ViewRun<R>): (o: Outcome<R>)
    ensures lookup.Raised? ==> o == Outcome(JsonError(401, InvalidToken), [])
    ensures lookup == Completed(None) ==> o == Outcome(JsonError(401, UserNotFound), [])
    ensures lookup.Completed? && lookup.user.Some? ==>
              o.calls == [lookup.user.value]
              && (view(lookup.user.value).Returned? ==> o.response == FromView(view(lookup.user.value).value))
              && (view(lookup.user.value).ViewRaised? ==> o.response == JsonError(401, InvalidToken))
  {
    match lookup
    case Raised => Outcome(JsonError(401, InvalidToken), [])
    case Completed(None) => Outcome(JsonError(401, UserNotFound), [])
    case Completed(Some(u)) => CallView(u, view)
  }

  /** `roles_required(*roles)(f)`: as `token_required`, with a 403 naming the role before the call. */
  function RolesRequired<R>(roles: seq<string>, lookup: Lookup, view: DbUser -> ViewRun<R>): (o: Outcome<R>)
    ensures lookup.Raised? ==> o == Outcome(JsonError(401, InvalidToken), [])
    ensures lookup == Completed(None) ==> o == Outcome(JsonError(401, UserNotFound), [])
    ensures lookup.Completed? && lookup.user.Some? && lookup.user.value.role !in roles ==>
              o == Outcome(JsonError(403, RoleNotAuthorized(lookup.user.value.role)), [])
  {
    match lookup
    case Raised => Outcome(JsonError(401, InvalidToken), [])
    case Completed(None) => Outcome(JsonError(401, UserNotFound), [])
    case Completed(Some(u)) =>
      if u.role !in roles then Outcome(JsonError(403, RoleNotAuthorized(u.role)), [])
      else CallView(u, view)
  }

  /** For a user whose role is allowed, the role guard decides exactly as the token guard. */
  lemma AllowedRoleIsTokenRequired<R>(roles: seq<string>, lookup: Lookup, view: DbUser -> ViewRun<R>)
    requires lookup.Completed? && lookup.user.Some? ==> lookup.user.value.role in roles
    ensures RolesRequired(roles, lookup, view) == TokenRequired(lookup, view)
  {
  }

  /**
   * The view runs at most once, and only with the looked-up user; a reply of the view means
   * that user exists and, under the role guard, has an allowed role; every error is 401 or 403.
   */
  lemma ViewOnlyForAuthorized<R>(roles: seq<string>, lookup: Lookup, view: DbUser -> ViewRun<R>)
    ensures var o := RolesRequired(roles, lookup, view);
            |o.calls| <= 1
            && (o.calls != [] ==> lookup == Completed(Some(o.calls[0])) && o.calls[0].role in roles)
            && (o.response.FromView? ==> o.calls != [])
            && (o.response.JsonError? ==> o.response.status == 401 || o.response.status == 403)
            && (o.response.JsonError? && o.response.status == 403 ==> o.calls == [])
    ensures var o := TokenRequired(lookup, view);
            |o.calls| <= 1
            && (o.calls != [] ==> lookup == Completed(Some(o.calls[0])))
            && (o.response.FromView? ==> o.calls != [])
            && (o.response.JsonError? ==> o.response.status == 401)
  {
  }
}
