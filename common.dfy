/** Shapes shared by every part of the pricing browser: optional JSON fields,
    JSON objects in their enumeration order, the `{label, value}` options the
    pickers exchange, and the `{data, loading, error}` triple every fetch hook
    hands to its component. */
module Common {

  /** An optional JSON field: `None` stands for `undefined`, and for `null`
      where the code tests the field by truthiness or optional chaining.
      The one field tested against `undefined` alone, the USD price of a
      price dimension, is never `null` in this model. */
  datatype Option<+T> = None | Some(value: T)

  /** A JSON object, as the list of its entries in the order `Object.entries`
      and `Object.keys` enumerate them. */
  type Entries<V> = seq<(string, V)>

  /** The keys of a JSON object, in enumeration order. */
  function Keys<V>(e: Entries<V>): (ks: seq<string>)
    ensures |ks| == |e|
    ensures forall i :: 0 <= i < |e| ==> ks[i] == e[i].0
  {
    if e == [] then [] else [e[0].0] + Keys(e[1..])
  }

  /** `obj[key]`: the value stored under `key`, if the object has that key. */
  function Lookup<V>(e: Entries<V>, key: string): (r: Option<V>)
    ensures r.None? <==> forall i :: 0 <= i < |e| ==> e[i].0 != key
    ensures r.Some? ==> exists i :: 0 <= i < |e| && e[i] == (key, r.value)
  {
    if e == [] then None
    else if e[0].0 == key then Some(e[0].1)
    else Lookup(e[1..], key)
  }

  /** A picker option `{label?: string; value?: string}`; `label` is a
      reserved word in Dafny, so the label is the field `text`. */
  datatype Choice = Choice(text: Option<string>, value: Option<string>)

  /** What a fetch hook returns: the parsed document once it arrived, whether
      the request is still running, and whether it failed. */
  datatype Fetch<T> = Fetch(data: Option<T>, loading: bool, error: bool)

  /** `s || ""` for an optional string (an absent string is falsy, and so is
      the empty one, which maps to itself). */
  function OrEmpty(s: Option<string>): string
  {
    if s.Some? then s.value else ""
  }

  /** `list.some(x => x.value === v)` over picker options. */
  predicate SomeValue(choices: seq<Choice>, v: Option<string>)
  {
    exists i :: 0 <= i < |choices| && choices[i].value == v
  }
}
