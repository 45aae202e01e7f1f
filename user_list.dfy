/**
 * The admin's user list (components/UserList.jsx): the fetched users get their locally stored
 * avatars, the signed-in user is merged in (prepended, or its entry patched), a failed fetch
 * falls back to the signed-in user alone, and the page shows three role sections filtered by
 * a search query. The fetched array is updated in place, as the source does.
 */
module UserList {
  import opened Js
  import opened Text
  import opened Seqs
  import opened Storage
  import opened Entities
  import opened Api
  import opened Permissions
  import opened Identity

  const LoadFailed := "Failed to load users from server. Showing local account only."

  /**
   * `getLocalAvatar(email)`: '' without an email; otherwise a truthy value under
   * `avatar:<email>`, else a truthy value under `avatar:<lowercased email>`, else ''.
   */
  function LocalAvatar(items: map<string, string>, email: Opt): (r: string)
    ensures !Truthy(email) ==> r == ""
    ensures Truthy(email) && Truthy(Get(items, AvatarKey(email.value))) ==> r == items[AvatarKey(email.value)]
    ensures Truthy(email) && !Truthy(Get(items, AvatarKey(email.value))) ==>
              r == OrElse(Get(items, AvatarKey(Lower(email.value))), "")
  {
    if !Truthy(email) then ""
    else OrElse(Or(Get(items, AvatarKey(email.value)), Get(items, AvatarKey(Lower(email.value)))), "")
  }

  /** One step of the attachment loop: a user with an email and no avatar takes a non-empty local avatar. */
  function WithLocalAvatar(items: map<string, string>, u: User): (r: User)
    ensures r == u.(avatarURL := r.avatarURL)
    ensures Truthy(u.avatarURL) || !Truthy(u.email) ==> r == u
    ensures r != u ==> r.avatarURL == Some(LocalAvatar(items, u.email)) && LocalAvatar(items, u.email) != ""
    ensures !Truthy(u.avatarURL) && Truthy(u.email) && LocalAvatar(items, u.email) != "" ==>
              r.avatarURL == Some(LocalAvatar(items, u.email))
  {
    if !Truthy(u.avatarURL) && Truthy(u.email) && LocalAvatar(items, u.email) != "" then
      u.(avatarURL := Some(LocalAvatar(items, u.email)))
    else u
  }

  /** The fetched list after the attachment loop. */
  function Attached(fetched: seq<User>, items: map<string, string>): seq<User> {
    Map(u => WithLocalAvatar(items, u), fetched)
  }

  /** The attachment loop adds and removes no user, and changes nothing but missing avatars. */
  lemma AttachNeverOverwrites(fetched: seq<User>, items: map<string, string>)
    ensures |Attached(fetched, items)| == |fetched|
    ensures forall k :: 0 <= k < |fetched| ==>
              Attached(fetched, items)[k] == fetched[k].(avatarURL := Attached(fetched, items)[k].avatarURL)
    ensures forall k :: 0 <= k < |fetched| && Truthy(fetched[k].avatarURL) ==> Attached(fetched, items)[k] == fetched[k]
    ensures forall k :: 0 <= k < |fetched| && !Truthy(fetched[k].email) ==> Attached(fetched, items)[k] == fetched[k]
  {
  }

  /** The key the merge compares: `(u.email || '').toLowerCase()`. */
  function EmailKey(u: User): string {
    Lower(OrElse(u.email, ""))
  }

  /** `findIndex` on the email key: the first index whose key is `key`, or -1 when there is none. */
  function IndexOfEmail(s: seq<User>, key: string): (r: int)
    ensures -1 <= r < |s|
    ensures r >= 0 ==> EmailKey(s[r]) == key && forall j :: 0 <= j < r ==> EmailKey(s[j]) != key
    ensures r == -1 ==> forall j :: 0 <= j < |s| ==> EmailKey(s[j]) != key
  {
    if s == [] then -1
    else if EmailKey(s[0]) == key then 0
    else
      var r := IndexOfEmail(s[1..], key);
      if r == -1 then -1 else r + 1
  }

  /** `currentUser.avatarURL || getLocalAvatar(currentUser.email)`. */
  function CurrentAvatar(cu: User, items: map<string, string>): string {
    if Truthy(cu.avatarURL) then cu.avatarURL.value else LocalAvatar(items, cu.email)
  }

  /** The entry prepended for a signed-in user missing from the list. */
  function CurrentUserEntry(cu: User, localAvatar: string): (r: User)
    ensures r.id == if Truthy(cu.id) then cu.id else Some("me")
    ensures r.role == if Truthy(cu.role) then cu.role else Some(Admin)
    ensures r.name == cu.name && r.email == cu.email
    ensures r.avatarURL == if localAvatar != "" then Some(localAvatar) else None
  {
    User(Or(cu.id, Some("me")), cu.name, cu.email, Or(cu.role, Some(Admin)),
         if localAvatar != "" then Some(localAvatar) else None)
  }

  /** The list `setUsers` receives after a successful fetch. */
  function Reconciled(fetched: seq<User>, cu: User, items: map<string, string>): seq<User> {
    var attached := Attached(fetched, items);
    if !Truthy(cu.email) then attached
    else
      var idx := IndexOfEmail(attached, Lower(cu.email.value));
      var localAvatar := CurrentAvatar(cu, items);
      if idx == -1 then [CurrentUserEntry(cu, localAvatar)] + attached
      else if !Truthy(attached[idx].avatarURL) && localAvatar != "" then
        attached[idx := attached[idx].(avatarURL := Some(localAvatar))]
      else attached
  }

  /**
   * No entry matches the signed-in user's email, ignoring case: the user is prepended at
   * index 0 and the list grows by one.
   */
  lemma ReconcilePrepends(fetched: seq<User>, cu: User, items: map<string, string>)
    requires Truthy(cu.email)
    requires forall k :: 0 <= k < |fetched| ==> EmailKey(fetched[k]) != Lower(cu.email.value)
    ensures var r := Reconciled(fetched, cu, items);
            |r| == |fetched| + 1 && r[0] == CurrentUserEntry(cu, CurrentAvatar(cu, items))
            && r[1..] == Attached(fetched, items)
  {
    var attached := Attached(fetched, items);
    forall k | 0 <= k < |attached|
      ensures EmailKey(attached[k]) != Lower(cu.email.value)
    {
      assert attached[k].email == fetched[k].email;
    }
  }

  /**
   * Some entry matches: the length is unchanged and every other entry is the attached one;
   * the first matched entry gains the local avatar exactly when it had none and one is known
   * locally, and otherwise the list is the attached fetch.
   */
  lemma ReconcilePatches(fetched: seq<User>, cu: User, items: map<string, string>, m: nat)
    requires Truthy(cu.email)
    requires m < |fetched| && EmailKey(fetched[m]) == Lower(cu.email.value)
    ensures var r := Reconciled(fetched, cu, items);
            var attached := Attached(fetched, items);
            var idx := IndexOfEmail(attached, Lower(cu.email.value));
            |r| == |fetched| && 0 <= idx <= m
            && (forall k :: 0 <= k < |r| && k != idx ==> r[k] == attached[k])
            && r[idx] == attached[idx].(avatarURL := r[idx].avatarURL)
            && (r[idx] != attached[idx] ==>
                  !Truthy(attached[idx].avatarURL) && r[idx].avatarURL == Some(CurrentAvatar(cu, items))
                  && CurrentAvatar(cu, items) != "")
            && (!Truthy(attached[idx].avatarURL) && CurrentAvatar(cu, items) != "" ==>
                  r[idx].avatarURL == Some(CurrentAvatar(cu, items)))
            && (Truthy(attached[idx].avatarURL) || CurrentAvatar(cu, items) == "" ==> r == attached)
  {
    assert Attached(fetched, items)[m].email == fetched[m].email;
  }

  /** Without an email the signed-in user is not merged: the list is the attached fetch. */
  lemma ReconcileWithoutEmail(fetched: seq<User>, cu: User, items: map<string, string>)
    requires !Truthy(cu.email)
    ensures Reconciled(fetched, cu, items) == Attached(fetched, items)
  {
  }

  /**
   * The list after a failed fetch: the signed-in user alone when it has an email, with the
   * avatar stored under its exact key, else its own avatar, else none; otherwise empty.
   */
  function Fallback(cu: User, items: map<string, string>): (r: seq<User>)
    ensures !Truthy(cu.email) ==> r == []
    ensures Truthy(cu.email) ==>
              |r| == 1 && r[0].email == cu.email && r[0].name == cu.name
              && r[0].id == (if Truthy(cu.id) then cu.id else Some("me"))
              && r[0].role == (if Truthy(cu.role) then cu.role else Some(Admin))
    ensures Truthy(cu.email) && Truthy(Get(items, AvatarKey(cu.email.value))) ==>
              r[0].avatarURL == Some(items[AvatarKey(cu.email.value)])
    ensures Truthy(cu.email) && !Truthy(Get(items, AvatarKey(cu.email.value))) ==>
              r[0].avatarURL == if Truthy(cu.avatarURL) then cu.avatarURL else None
  {
    if !Truthy(cu.email) then []
    else
      var stored := Or(Get(items, AvatarKey(cu.email.value)), cu.avatarURL);
      [User(Or(cu.id, Some("me")), cu.name, cu.email, Or(cu.role, Some(Admin)),
            if Truthy(stored) then stored else None)]
  }

  /** The users the list holds after the fetch resolved or failed. */
  function LoadedUsers(reply: HttpReply, cu: User, items: map<string, string>): seq<User> {
    match ApiCall(reply)
    case Success(data) => Reconciled(data.users.GetOr([]), cu, items)
    case Failure(_) => Fallback(cu, items)
  }

  /** `u.role === role`. */
  function RoleIs(role: string): User -> bool {
    (u: User) => u.role == Some(role)
  }

  /**
   * `matches(u)`: everything for an empty query; otherwise the lowercased query occurs in the
   * lowercased name, email or role, a missing field reading as ''.
   */
  predicate Matches(query: string, u: User) {
    query == ""
    || Includes(Lower(OrElse(u.name, "")), Lower(query))
    || Includes(Lower(OrElse(u.email, "")), Lower(query))
    || Includes(Lower(OrElse(u.role, "")), Lower(query))
  }

  function MatchesQuery(query: string): User -> bool {
    u => Matches(query, u)
  }

  /** The search ignores the case of the query. */
  lemma MatchesIgnoresQueryCase(query: string, u: User)
    ensures Matches(Lower(query), u) == Matches(query, u)
  {
    LowerIdempotent(query);
    assert Lower(query) == "" <==> query == "";
  }

  /** `adminsFiltered`, `editorsFiltered`, `viewersFiltered`. */
  function Section(users: seq<User>, role: string, query: string): seq<User> {
    Filter(Filter(users, RoleIs(role)), MatchesQuery(query))
  }

  /**
   * Each section keeps the order of its role list and holds only users of that role that
   * match; a user of that role that matches is in it; an empty query keeps the whole role list.
   */
  lemma SectionExact(users: seq<User>, role: string, query: string)
    ensures IsSubseq(Section(users, role, query), Filter(users, RoleIs(role)))
    ensures IsSubseq(Filter(users, RoleIs(role)), users)
    ensures forall k :: 0 <= k < |Section(users, role, query)| ==>
              Section(users, role, query)[k].role == Some(role) && Matches(query, Section(users, role, query)[k])
    ensures forall k :: 0 <= k < |users| && users[k].role == Some(role) && Matches(query, users[k]) ==>
              users[k] in Section(users, role, query)
    ensures query == "" ==> Section(users, role, "") == Filter(users, RoleIs(role))
  {
    FilterIsSubseq(Filter(users, RoleIs(role)), MatchesQuery(query));
    FilterIsSubseq(users, RoleIs(role));
    var byRole := Filter(users, RoleIs(role));
    forall k | 0 <= k < |users| && users[k].role == Some(role) && Matches(query, users[k])
      ensures users[k] in Section(users, role, query)
    {
      assert users[k] in byRole;
      var j :| 0 <= j < |byRole| && byRole[j] == users[k];
      assert MatchesQuery(query)(byRole[j]);
    }
    if query == "" {
      FilterAll(byRole, MatchesQuery(query));
    }
  }

  /** No user is both an admin and an editor, say: the three role lists are disjoint, and other roles are in none. */
  lemma RoleListsDisjoint(users: seq<User>, u: User)
    ensures u in Filter(users, RoleIs(Admin)) ==> u !in Filter(users, RoleIs(Editor)) && u !in Filter(users, RoleIs(Viewer))
    ensures u in Filter(users, RoleIs(Editor)) ==> u !in Filter(users, RoleIs(Viewer))
    ensures u.role != Some(Admin) && u.role != Some(Editor) && u.role != Some(Viewer) ==>
              u !in Filter(users, RoleIs(Admin)) && u !in Filter(users, RoleIs(Editor)) && u !in Filter(users, RoleIs(Viewer))
  {
  }

  /** A user whose role is none of the three. */
  function OtherRole(): User -> bool {
    (u: User) => u.role != Some(Admin) && u.role != Some(Editor) && u.role != Some(Viewer)
  }

  /** The three role lists and the users of other roles account for every user exactly once. */
  lemma {:induction false} RolePartitionCount(users: seq<User>)
    ensures |Filter(users, RoleIs(Admin))| + |Filter(users, RoleIs(Editor))| + |Filter(users, RoleIs(Viewer))|
            + |Filter(users, OtherRole())| == |users|
  {
    if users != [] {
      RolePartitionCount(users[1..]);
    }
  }

  /** What the component renders. */
  datatype Page =
    | Unauthorized
    | Listing(error: Opt, loading: bool, admins: seq<User>, editors: seq<User>, viewers: seq<User>)

  /** The render: the unauthorised notice for a non-admin, whatever was fetched; the three sections otherwise. */
  function Render(cu: User, users: seq<User>, loading: bool, error: Opt, query: string): (p: Page)
    ensures p.Unauthorized? <==> !IsAdmin(cu)
    ensures p.Listing? ==> p.error == error && p.loading == loading
    ensures p.Listing? ==> p.admins == Section(users, Admin, query) && p.editors == Section(users, Editor, query)
                           && p.viewers == Section(users, Viewer, query)
  {
    if !IsAdmin(cu) then Unauthorized
    else Listing(error, loading, Section(users, Admin, query), Section(users, Editor, query), Section(users, Viewer, query))
  }

  /** The component's state for one signed-in user. */
  class UserListView {
    const currentUser: User
    const store: Store

    var users: seq<User>
    var loading: bool
    var error: Opt
    var query: string

    /** The `useState` initialisers. */
    constructor (currentUser: User, store: Store)
      ensures this.currentUser == currentUser && this.store == store
      ensures users == [] && loading && error == None && query == ""
    {
      this.currentUser := currentUser;
      this.store := store;
      users := [];
      loading := true;
      error := None;
      query := "";
    }

    function Shown(): Page
      reads this
    {
      Render(currentUser, users, loading, error, query)
    }

    /** The attachment loop, in place. */
    static method AttachLocalAvatars(a: array<User>, items: map<string, string>)
      modifies a
      ensures a[..] == Attached(old(a[..]), items)
    {
      var i := 0;
      while i < a.Length
        invariant 0 <= i <= a.Length
        invariant forall j :: 0 <= j < i ==> a[j] == WithLocalAvatar(items, old(a[j]))
        invariant forall j :: i <= j < a.Length ==> a[j] == old(a[j])
      {
        a[i] := WithLocalAvatar(items, a[i]);
        i := i + 1;
      }
    }

    /** `fetched.findIndex(...)` on the email key. */
    static method FindIndex(a: array<User>, key: string) returns (idx: int)
      ensures idx == IndexOfEmail(a[..], key)
    {
      idx := 0;
      while idx < a.Length
        invariant 0 <= idx <= a.Length
        invariant forall j :: 0 <= j < idx ==> EmailKey(a[j]) != key
      {
        if EmailKey(a[idx]) == key {
          return;
        }
        idx := idx + 1;
      }
      idx := -1;
    }

    /** The load effect: fetch, attach avatars, merge the signed-in user; on failure, the fallback and the error. */
    method Load(reply: HttpReply)
      modifies this
      ensures users == LoadedUsers(reply, currentUser, store.items)
      ensures error == if ApiCall(reply).Success? then None else Some(LoadFailed)
      ensures !loading && query == old(query)
    {
      loading := true;
      error := None;
      var call := ApiCall(reply);
      match call {
      case Failure(_) =>
        error := Some(LoadFailed);
        users := Fallback(currentUser, store.items);
      case Success(data) =>
        var list := data.users.GetOr([]);
        var fetched := new User[|list|](k requires 0 <= k < |list| => list[k]);
        assert fetched[..] == list;
        AttachLocalAvatars(fetched, store.items);
        if Truthy(currentUser.email) {
          var idx := FindIndex(fetched, Lower(currentUser.email.value));
          var localAvatar := CurrentAvatar(currentUser, store.items);
          if idx == -1 {
            users := [CurrentUserEntry(currentUser, localAvatar)] + fetched[..];
          } else {
            if !Truthy(fetched[idx].avatarURL) && localAvatar != "" {
              fetched[idx] := fetched[idx].(avatarURL := Some(localAvatar));
            }
            users := fetched[..];
          }
        } else {
          users := fetched[..];
        }
      }
      loading := false;
    }

    /** The search input, rendered for an admin only. */
    method SetQuery(q: string)
      modifies this
      ensures IsAdmin(currentUser) ==> query == q
      ensures !IsAdmin(currentUser) ==> query == old(query)
      ensures users == old(users) && loading == old(loading) && error == old(error)
    {
      if IsAdmin(currentUser) {
        query := q;
      }
    }
  }
}
