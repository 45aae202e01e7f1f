/**
 * The identity-override store of the dashboard (components/WikiDashboard.jsx): a display name
 * and an avatar kept in local storage under per-email keys, preferred over the server's values.
 */
module Identity {
  import opened Js
  import opened Storage
  import opened Entities
  import Api

  const NamePrefix := "name:"
  const AvatarPrefix := "avatar:"

  /** The two override prefixes. */
  predicate IsOverridePrefix(prefix: string) {
    prefix == NamePrefix || prefix == AvatarPrefix
  }

  function NameKey(email: string): string {
    NamePrefix + email
  }

  function AvatarKey(email: string): string {
    AvatarPrefix + email
  }

  /**
   * Override keys are namespaced: one per prefix and email, a name key is never an avatar key,
   * and neither is one of the session keys `token` and `user`.
   */
  lemma {:induction false} OverrideKeysDistinct(p1: string, e1: string, p2: string, e2: string)
    requires IsOverridePrefix(p1) && IsOverridePrefix(p2)
    ensures p1 + e1 == p2 + e2 <==> p1 == p2 && e1 == e2
    ensures p1 + e1 != Api.TokenKey && p1 + e1 != Api.UserKey
  {
    var k1, k2 := p1 + e1, p2 + e2;
    assert k1[0] == p1[0] && k1[..|p1|] == p1;
    assert k2[0] == p2[0] && k2[..|p2|] == p2;
    assert p1 != p2 ==> p1[0] != p2[0];
    if k1 == k2 {
      assert e1 == k1[|p1|..] && e2 == k2[|p2|..];
    }
    assert p1[0] != 't' && p1[0] != 'u';
    assert Api.TokenKey[0] == 't' && Api.UserKey[0] == 'u';
  }

  /**
   * The `useState` initialiser of `displayName` (prefix `name:`, server value `user.name`) and
   * of `avatarUrl` (prefix `avatar:`, server value `user.avatarURL`): a truthy stored override
   * wins, then a truthy server value, then ''. Without an email storage is not read.
   */
  function EffectiveValue(items: map<string, string>, prefix: string, email: Opt, serverValue: Opt): (r: string)
    ensures !Truthy(email) ==> r == OrElse(serverValue, "")
    ensures Truthy(email) && Truthy(Get(items, prefix + email.value)) ==> r == items[prefix + email.value]
    ensures Truthy(email) && !Truthy(Get(items, prefix + email.value)) ==> r == OrElse(serverValue, "")
  {
    if !Truthy(email) then OrElse(serverValue, "")
    else OrElse(Or(Get(items, prefix + email.value), serverValue), "")
  }

  function DisplayName(user: User, items: map<string, string>): string {
    EffectiveValue(items, NamePrefix, user.email, user.name)
  }

  function AvatarUrl(user: User, items: map<string, string>): string {
    EffectiveValue(items, AvatarPrefix, user.email, user.avatarURL)
  }

  /**
   * The persistence effect for one override: with an email, a non-empty value is written under
   * its key and an empty one removes the key; without an email nothing is written.
   */
  function Persist(items: map<string, string>, prefix: string, email: Opt, value: string): (r: map<string, string>)
    ensures !Truthy(email) ==> r == items
    ensures Truthy(email) && value != "" ==> r == items[prefix + email.value := value]
    ensures Truthy(email) && value == "" ==> r == items - {prefix + email.value}
  {
    if !Truthy(email) then items
    else if value != "" then items[prefix + email.value := value]
    else items - {prefix + email.value}
  }

  /**
   * Save then load: after persisting a value for an email, the effective value read back for
   * that email is the value itself, or, when the value was empty, the server's value again.
   */
  lemma PersistThenLoad(items: map<string, string>, prefix: string, email: Opt, serverValue: Opt, value: string)
    requires Truthy(email)
    ensures EffectiveValue(Persist(items, prefix, email, value), prefix, email, serverValue)
            == if value != "" then value else OrElse(serverValue, "")
  {
  }

  /** Persisting an override for one email or prefix never changes what another email or prefix reads. */
  lemma PersistIsolated(items: map<string, string>, p1: string, e1: Opt, value: string, p2: string, e2: Opt, serverValue: Opt)
    requires IsOverridePrefix(p1) && IsOverridePrefix(p2)
    requires Truthy(e1) && Truthy(e2) && (p1 != p2 || e1 != e2)
    ensures EffectiveValue(Persist(items, p1, e1, value), p2, e2, serverValue) == EffectiveValue(items, p2, e2, serverValue)
  {
    OverrideKeysDistinct(p1, e1.value, p2, e2.value);
  }
}
