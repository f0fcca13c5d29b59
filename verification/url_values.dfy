/** Go's `url.Values`: each query key maps to the list of its values. */
module UrlValues {

  type Values<K> = map<K, seq<string>>

  /** url.Values.Get: the first value of the key, or "" when the key is
      absent or has no value. */
  function Get<K>(v: Values<K>, key: K): (r: string)
    ensures key in v && |v[key]| > 0 ==> r == v[key][0]
    ensures key !in v ==> r == ""
  {
    if key in v && |v[key]| > 0 then v[key][0] else ""
  }

  /** url.Values.Set: the key ends up with exactly the one given value. */
  function Set<K>(v: Values<K>, key: K, value: string): (r: Values<K>)
    ensures key in r && r[key] == [value]
    ensures Get(r, key) == value
  {
    v[key := [value]]
  }

  /** Set adds no key but its own and leaves every other key's values alone. */
  lemma SetKeepsOthers<K>(v: Values<K>, key: K, value: string, other: K)
    requires other != key
    ensures other in Set(v, key, value) <==> other in v
    ensures other in v ==> Set(v, key, value)[other] == v[other]
  {
  }
}
