/** Small value types and generic facts about sequences and maps, shared by every module of the model. */
module Wrappers {

  /** Go's `error` return: `None` stands for `nil`, `Some(text)` for an error whose `Error()` is `text`;
      also used for the optional values of the configuration. */
  datatype Option<+T> = None | Some(value: T)

  /** A Go `byte`. Go strings are byte strings; credentials are kept as bytes. */
  type byte = b: int | 0 <= b < 256

  lemma Associative<T>(a: seq<T>, b: seq<T>, c: seq<T>)
    ensures a + (b + c) == a + b + c
  {
  }

  /** A sequence is its prefix up to `k`, its element at `k` and its suffix after `k`. */
  lemma AroundIndex<T>(s: seq<T>, k: nat)
    requires k < |s|
    ensures s == s[..k] + ([s[k]] + s[k + 1..])
  {
  }

  /** Registering a new key and removing it again leaves the map as it was. */
  lemma RemoveAdded<K, V>(m: map<K, V>, k: K, v: V)
    requires k !in m
    ensures m[k := v] - {k} == m
  {
  }
}
