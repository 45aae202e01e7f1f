/**
 * The login form (components/LoginPage.jsx): a successful login resolves the user from
 * `/auth/me` or the login reply and stores it with the token; failures become the form's error;
 * logout forgets exactly the session keys.
 */
module LoginPage {
  import opened Js
  import opened Storage
  import opened Entities
  import opened Api
  import opened Identity

  const LoginFailed := "Login failed"
  const ErrorOccurred := "An error occurred"

  /** `userRes.user || res.user`: a user object is always truthy, a missing one is not. */
  function ResolvedUser(me: Option<User>, login: Option<User>): (r: Option<User>)
    ensures me.Some? ==> r == me
    ensures me.None? ==> r == login
  {
    if me.Some? then me else login
  }

  /** `JSON.stringify(user)` as `setItem` stores it: a missing user is stored as the text 'undefined'. */
  function SerializedUser(serialize: User -> string, user: Option<User>): string {
    match user
    case Some(u) => serialize(u)
    case None => "undefined"
  }

  /** Logout keeps every name and avatar override, so the next sign-in on this browser finds them. */
  lemma LogoutKeepsOverrides(items: map<string, string>, prefix: string, email: Opt, serverValue: Opt)
    requires IsOverridePrefix(prefix)
    ensures EffectiveValue(items - {UserKey, TokenKey}, prefix, email, serverValue) == EffectiveValue(items, prefix, email, serverValue)
  {
    if Truthy(email) {
      OverrideKeysDistinct(prefix, email.value, prefix, email.value);
      assert Get(items - {UserKey, TokenKey}, prefix + email.value) == Get(items, prefix + email.value);
    }
  }

  class LoginForm {
    const store: Store
    /** The serialiser `JSON.stringify` applies to a user object. */
    const serialize: User -> string
    /** Whether an `onLogin` callback was passed. */
    const hasOnLogin: bool

    var email: string
    var password: string
    var error: string
    var loading: bool
    var loggedInUser: Option<User>
    /** The arguments of the `onLogin` calls, in order. */
    var logins: seq<Option<User>>

    /** Between two handlers a submit has run to its end. */
    predicate Valid()
      reads this
    {
      !loading
    }

    constructor (store: Store, serialize: User -> string, hasOnLogin: bool)
      ensures Valid()
      ensures this.store == store && this.serialize == serialize && this.hasOnLogin == hasOnLogin
      ensures email == "" && password == "" && error == "" && loggedInUser == None && logins == []
    {
      this.store := store;
      this.serialize := serialize;
      this.hasOnLogin := hasOnLogin;
      email, password := "", "";
      error := "";
      loading := false;
      loggedInUser := None;
      logins := [];
    }

    /**
     * `handleSubmit`, with the replies of the login and `/auth/me` calls. The login call itself
     * stores a truthy token; on a truthy `success` the form stores 'user' whatever it resolved
     * and 'token' again only when it is truthy.
     */
    method Submit(loginReply: HttpReply, meReply: HttpReply)
      requires Valid()
      modifies this, store
      ensures Valid() && email == old(email) && password == old(password)
      ensures ApiCall(loginReply).Failure? ==>
                error == StrOr(ApiCall(loginReply).message, ErrorOccurred)
                && store.items == old(store.items) && loggedInUser == old(loggedInUser) && logins == old(logins)
      ensures ApiCall(loginReply).Success? && !TruthyFlag(NormalizeAuth(ApiCall(loginReply).value).success) ==>
                error == OrElse(ApiCall(loginReply).value.message, LoginFailed)
                && store.items == StoreToken(old(store.items), ApiCall(loginReply).value)
                && loggedInUser == old(loggedInUser) && logins == old(logins)
      ensures ApiCall(loginReply).Success? && TruthyFlag(NormalizeAuth(ApiCall(loginReply).value).success)
              && ApiCall(meReply).Failure? ==>
                error == StrOr(ApiCall(meReply).message, ErrorOccurred)
                && store.items == StoreToken(old(store.items), ApiCall(loginReply).value)
                && loggedInUser == old(loggedInUser) && logins == old(logins)
      ensures ApiCall(loginReply).Success? && TruthyFlag(NormalizeAuth(ApiCall(loginReply).value).success)
              && ApiCall(meReply).Success? ==>
                var user := ResolvedUser(ApiCall(meReply).value.user, ApiCall(loginReply).value.user);
                error == "" && loggedInUser == user
                && store.items == StoreToken(old(store.items), ApiCall(loginReply).value)[UserKey := SerializedUser(serialize, user)]
                && logins == old(logins) + (if hasOnLogin then [user] else [])
    {
      error := "";
      loading := true;
      var r := Authenticate(store, loginReply);
      match r {
        case Failure(message) =>
          error := StrOr(message, ErrorOccurred);
        case Success(res) =>
          if TruthyFlag(res.success) {
            var me := ApiCall(meReply);
            match me {
              case Failure(message) =>
                error := StrOr(message, ErrorOccurred);
              case Success(meData) =>
                var user := ResolvedUser(meData.user, res.user);
                if Truthy(res.token) {
                  store.SetItem(TokenKey, res.token.value);
                }
                store.SetItem(UserKey, SerializedUser(serialize, user));
                loggedInUser := user;
                if hasOnLogin {
                  logins := logins + [user];
                }
            }
          } else {
            error := OrElse(res.message, LoginFailed);
          }
      }
      loading := false;
    }

    /** `handleLogout`, reached from the dashboard shown while a user is logged in. */
    method Logout()
      requires Valid()
      modifies this, store
      ensures Valid()
      ensures old(loggedInUser).Some? ==> loggedInUser == None && store.items == old(store.items) - {UserKey, TokenKey}
      ensures old(loggedInUser).None? ==> loggedInUser == None && store.items == old(store.items)
      ensures email == old(email) && password == old(password) && error == old(error) && logins == old(logins)
    {
      if loggedInUser.Some? {
        loggedInUser := None;
        store.RemoveItem(UserKey);
        store.RemoveItem(TokenKey);
      }
    }
  }
}
