/** JavaScript values as the frontend reads them: optional fields and truthiness. */
module Js {

  /** An optional value; `None` stands for a missing (undefined) field. */
  datatype Option<+T> = None | Some(value: T) {

    /** The value, or `default` when it is missing. */
    function GetOr(default: T): T {
      match this
      case Some(v) => v
      case None => default
    }
  }

  /** An optional string field of a JSON object or a component prop. */
  type Opt = Option<string>

  /** JavaScript truthiness of an optional string: present and not ''. */
  predicate Truthy(o: Opt) {
    o.Some? && o.value != ""
  }

  /** `a || b` on optional strings. */
  function Or(a: Opt, b: Opt): (r: Opt)
    ensures Truthy(r) <==> Truthy(a) || Truthy(b)
  {
    if Truthy(a) then a else b
  }

  /** `a || fallback` where the fallback is a string literal. */
  function OrElse(a: Opt, fallback: string): (r: string)
    ensures r == fallback || (Truthy(a) && r == a.value)
  {
    if Truthy(a) then a.value else fallback
  }

  /** `s || fallback` on a string that is always present. */
  function StrOr(s: string, fallback: string): (r: string)
    ensures r == fallback || (s != "" && r == s)
  {
    if s != "" then s else fallback
  }

  /** JavaScript truthiness of an optional JSON boolean. */
  predicate TruthyFlag(b: Option<bool>) {
    b == Some(true)
  }

  /** `a || b` on optional JSON booleans. */
  function OrFlag(a: Option<bool>, b: Option<bool>): (r: Option<bool>)
    ensures TruthyFlag(r) <==> TruthyFlag(a) || TruthyFlag(b)
  {
    if TruthyFlag(a) then a else b
  }
}
