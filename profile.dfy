/**
 * The account profile card (components/Profile.jsx): prop defaults, the initials shown when
 * there is no avatar, and the view/edit cycle of the name and avatar draft, whose Save hands
 * the draft to the dashboard's callback.
 */
module Profile {
  import opened Js
  import opened Text
  import opened Seqs
  import opened Entities
  import Dashboard

  datatype Mode = View | Edit

  /** The destructured props of the card. */
  datatype Fields = Fields(name: string, role: string, email: string, avatarURL: string)

  /** The destructuring defaults: they apply to a missing field only; a present one, even '', is kept. */
  function Defaults(user: User): (f: Fields)
    ensures user.name.Some? ==> f.name == user.name.value
    ensures user.name.None? ==> f.name == "Your Name"
    ensures user.role.Some? ==> f.role == user.role.value
    ensures user.role.None? ==> f.role == "User"
    ensures user.email.Some? ==> f.email == user.email.value
    ensures user.email.None? ==> f.email == "user@example.com"
    ensures user.avatarURL.Some? ==> f.avatarURL == user.avatarURL.value
    ensures user.avatarURL.None? ==> f.avatarURL == ""
  {
    Fields(user.name.GetOr("Your Name"), user.role.GetOr("User"),
           user.email.GetOr("user@example.com"), user.avatarURL.GetOr(""))
  }

  /** `parts.join('')`. */
  function Concat(parts: seq<string>): string {
    if parts == [] then "" else parts[0] + Concat(parts[1..])
  }

  /** Joining one or two parts. */
  lemma ConcatOfFew(parts: seq<string>)
    ensures |parts| == 1 ==> Concat(parts) == parts[0]
    ensures |parts| == 2 ==> Concat(parts) == parts[0] + parts[1]
  {
    if |parts| == 2 {
      assert Concat(parts[1..][1..]) == "";
    } else if |parts| == 1 {
      assert Concat(parts[1..]) == "";
    }
  }

  function NonEmpty(): string -> bool {
    (part: string) => part != ""
  }

  /** `name.trim().split(' ').filter(Boolean)`: the words of the name, none empty and none holding a space. */
  function Words(name: string): (w: seq<string>)
    ensures forall k :: 0 <= k < |w| ==> w[k] != "" && ' ' !in w[k]
  {
    Filter(Split(Trim(name), ' '), NonEmpty())
  }

  /** `part[0].toUpperCase()`; every word is non-empty, so the '' branch is never taken. */
  function FirstUpper(part: string): string {
    if part == "" then "" else [UpperChar(part[0])]
  }

  /**
   * `initials`: the uppercased first characters of the first two words, joined, or 'U' when
   * the name has no word.
   */
  function Initials(name: string): (r: string)
    ensures 1 <= |r| <= 2
    ensures Words(name) == [] ==> r == "U"
    ensures |Words(name)| == 1 ==> r == [UpperChar(Words(name)[0][0])]
    ensures |Words(name)| >= 2 ==> r == [UpperChar(Words(name)[0][0]), UpperChar(Words(name)[1][0])]
  {
    var w := Words(name);
    var firsts := Map(FirstUpper, w);
    var taken := firsts[..if |firsts| < 2 then |firsts| else 2];
    var joined := Concat(taken);
    ConcatOfFew(taken);
    if joined == "" then "U" else joined
  }

  /**
   * The dashboard and the card together: after a Save whose draft name is non-empty, the props
   * the dashboard hands back carry that name, so the card's synced name is the draft; a Save
   * with an empty draft name leaves the dashboard's name as it was.
   */
  lemma {:induction false} SaveRoundTrip(s: Dashboard.DashState, user: User, sent: User, draftName: string, draftAvatar: string)
    requires sent == user.(name := Some(draftName), avatarURL := Some(draftAvatar))
    ensures var t := Dashboard.AfterProfileUpdate(s, sent);
            draftName != "" ==> Defaults(Dashboard.ProfileProps(user, t.displayName, t.avatarUrl)).name == draftName
    ensures var t := Dashboard.AfterProfileUpdate(s, sent);
            draftName == "" ==> t.displayName == s.displayName
    ensures var t := Dashboard.AfterProfileUpdate(s, sent);
            Defaults(Dashboard.ProfileProps(user, t.displayName, t.avatarUrl)).avatarURL
            == if draftAvatar != "" then draftAvatar else s.avatarUrl
  {
    var t := Dashboard.AfterProfileUpdate(s, sent);
    if draftName != "" {
      assert t.displayName == draftName;
      assert Dashboard.ProfileProps(user, t.displayName, t.avatarUrl).name == Some(draftName);
    }
  }

  /** The card, for the `user` prop it currently has. */
  class ProfileCard {
    /** Whether an `onUpdateProfile` callback was passed. */
    const hasCallback: bool

    var user: User
    var avatar: string
    var profileName: string
    var mode: Mode
    /** The arguments of the callback calls, in order. */
    var updates: seq<User>

    /** The `useState` initialisers: the defaulted name and avatar, in view mode. */
    constructor (user: User, hasCallback: bool)
      ensures this.user == user && this.hasCallback == hasCallback
      ensures profileName == Defaults(user).name && avatar == Defaults(user).avatarURL
      ensures mode == View && updates == []
    {
      this.user := user;
      this.hasCallback := hasCallback;
      profileName := Defaults(user).name;
      avatar := Defaults(user).avatarURL;
      mode := View;
      updates := [];
    }

    /** The Edit button (shown in view mode): reset the draft to the props and enter edit mode. */
    method StartEdit()
      modifies this
      ensures old(mode) == View ==>
                profileName == Defaults(user).name && avatar == Defaults(user).avatarURL && mode == Edit
      ensures old(mode) != View ==>
                profileName == old(profileName) && avatar == old(avatar) && mode == old(mode)
      ensures user == old(user) && updates == old(updates)
    {
      if mode == View {
        profileName := Defaults(user).name;
        avatar := Defaults(user).avatarURL;
        mode := Edit;
      }
    }

    /** The name input (shown in edit mode). */
    method TypeName(name: string)
      modifies this
      ensures old(mode) == Edit ==> profileName == name
      ensures old(mode) != Edit ==> profileName == old(profileName)
      ensures user == old(user) && avatar == old(avatar) && mode == old(mode) && updates == old(updates)
    {
      if mode == Edit {
        profileName := name;
      }
    }

    /**
     * A file chosen in the picker (shown in edit mode), given as the data URL it reads as:
     * only the preview changes, and the callback is not called; no file changes nothing.
     */
    method FileChosen(dataUrl: Option<string>)
      modifies this
      ensures old(mode) == Edit && dataUrl.Some? ==> avatar == dataUrl.value
      ensures !(old(mode) == Edit && dataUrl.Some?) ==> avatar == old(avatar)
      ensures user == old(user) && profileName == old(profileName) && mode == old(mode) && updates == old(updates)
    {
      if mode == Edit && dataUrl.Some? {
        avatar := dataUrl.value;
      }
    }

    /** Save (shown in edit mode): one call of the callback with the draft, then view mode. */
    method Save()
      modifies this
      ensures old(mode) == Edit ==>
                mode == View
                && updates == old(updates) + (if hasCallback then [user.(name := Some(profileName), avatarURL := Some(avatar))] else [])
      ensures old(mode) != Edit ==> mode == old(mode) && updates == old(updates)
      ensures user == old(user) && profileName == old(profileName) && avatar == old(avatar)
    {
      if mode == Edit {
        if hasCallback {
          updates := updates + [user.(name := Some(profileName), avatarURL := Some(avatar))];
        }
        mode := View;
      }
    }

    /** Cancel (shown in edit mode): the same reset as Edit, then view mode. */
    method Cancel()
      modifies this
      ensures old(mode) == Edit ==>
                profileName == Defaults(user).name && avatar == Defaults(user).avatarURL && mode == View
      ensures old(mode) != Edit ==>
                profileName == old(profileName) && avatar == old(avatar) && mode == old(mode)
      ensures user == old(user) && updates == old(updates)
    {
      if mode == Edit {
        profileName := Defaults(user).name;
        avatar := Defaults(user).avatarURL;
        mode := View;
      }
    }

    /** A new `user` prop: the two sync effects copy a defaulted name or avatar that changed into the state. */
    method ReceiveProps(newUser: User)
      modifies this
      ensures user == newUser
      ensures Defaults(newUser).name != Defaults(old(user)).name ==> profileName == Defaults(newUser).name
      ensures Defaults(newUser).name == Defaults(old(user)).name ==> profileName == old(profileName)
      ensures Defaults(newUser).avatarURL != Defaults(old(user)).avatarURL ==> avatar == Defaults(newUser).avatarURL
      ensures Defaults(newUser).avatarURL == Defaults(old(user)).avatarURL ==> avatar == old(avatar)
      ensures mode == old(mode) && updates == old(updates)
    {
      var before := Defaults(user);
      user := newUser;
      if Defaults(newUser).name != before.name {
        profileName := Defaults(newUser).name;
      }
      if Defaults(newUser).avatarURL != before.avatarURL {
        avatar := Defaults(newUser).avatarURL;
      }
    }
  }
}
