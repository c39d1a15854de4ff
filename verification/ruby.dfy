/**
 The small part of Ruby and ActiveSupport that the merchant adapter leans on:
 nil-able values, JSON-like hash values, `Hash#merge`, and `present?` on a
 string that may be nil.
 */
module Ruby {

  /** Either `nil` or a value. */
  datatype Option<T> = None | Some(value: T)

  /** Ruby's `x || fallback` where `x` is either nil or a value. */
  function OrElse<T>(x: Option<T>, fallback: T): T {
    if x.Some? then x.value else fallback
  }

  /** A keyword argument that has a default: the caller either leaves it out
      or passes it, and what is passed may itself be nil. */
  datatype Keyword<T> = Omitted | Passed(arg: T)

  /** A JSON-like value: what a Stripe object serialises to with `to_hash`,
      and what the merchant record's cached `account_info.data` blob holds. */
  datatype Json =
    | JNull
    | JBool(b: bool)
    | JInt(n: int)
    | JStr(s: string)
    | JArray(items: seq<Json>)
    | JObject(fields: map<string, Json>)

  /** A Ruby hash. Symbol and string keys are both written as strings. */
  type Data = map<string, Json>

  /** `base.merge(upd)`: a shallow merge in which the keys of `upd` win and
      every key absent from `upd` keeps its value from `base`. */
  function Merge(base: Data, upd: Data): (r: Data)
    ensures r.Keys == base.Keys + upd.Keys
    ensures forall k :: k in upd ==> r[k] == upd[k]
    ensures forall k :: k in base && k !in upd ==> r[k] == base[k]
  {
    base + upd
  }

  /** Merging the same update a second time changes nothing. */
  lemma MergeIdempotent(base: Data, upd: Data)
    ensures Merge(Merge(base, upd), upd) == Merge(base, upd)
  {
  }

  /** A character matched by `[[:space:]]` in a Unicode string: the Unicode
      White_Space property. */
  predicate IsSpace(c: char) {
    var n := c as int;
    || 0x09 <= n <= 0x0D
    || n == 0x20
    || n == 0x85
    || n == 0xA0
    || n == 0x1680
    || 0x2000 <= n <= 0x200A
    || n == 0x2028
    || n == 0x2029
    || n == 0x202F
    || n == 0x205F
    || n == 0x3000
  }

  /** ActiveSupport's `String#blank?`: empty, or whitespace only. */
  function IsBlank(s: string): (b: bool)
    ensures b <==> forall i :: 0 <= i < |s| ==> IsSpace(s[i])
  {
    if |s| == 0 then true else IsSpace(s[0]) && IsBlank(s[1..])
  }

  /** ActiveSupport's `present?` on a string that may be nil: the string
      exists and holds a character that is not whitespace. */
  function Present(s: Option<string>): (b: bool)
    ensures b <==> (s.Some? && exists i :: 0 <= i < |s.value| && !IsSpace(s.value[i]))
  {
    s.Some? && !IsBlank(s.value)
  }
}
