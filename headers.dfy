/**
 * The Fetch `Headers` object as the response builder uses it: a multimap
 * whose names compare case-insensitively. Names are kept in lower case, as
 * Fetch stores them, and each name maps to its values in the order they were
 * added. `set` leaves exactly one value; `append` adds one after the others.
 */
module FetchHeaders {

  type HeaderMap = map<string, seq<string>>

  /** ASCII lower-casing of one character, the only case folding header names get. */
  function Lower(c: char): char
  {
    if 'A' <= c <= 'Z' then (c as int + 32) as char else c
  }

  /** The key under which a header name is stored. */
  function Normalize(name: string): (key: string)
    ensures |key| == |name|
    ensures forall i :: 0 <= i < |key| ==> !('A' <= key[i] <= 'Z')
  {
    seq(|name|, i requires 0 <= i < |name| => Lower(name[i]))
  }

  /** Normalizing twice is normalizing once: stored keys are their own key. */
  lemma NormalizeIdempotent(name: string)
    ensures Normalize(Normalize(name)) == Normalize(name)
  {
  }

  /** Every stored name is already normalized and carries at least one value. */
  ghost predicate WellFormed(h: HeaderMap)
  {
    forall key :: key in h ==> key == Normalize(key) && h[key] != []
  }

  /** `headers.has(name)` */
  predicate Has(h: HeaderMap, name: string)
  {
    Normalize(name) in h
  }

  /** All values stored for a name, oldest first; empty when the header is absent. */
  function Values(h: HeaderMap, name: string): seq<string>
  {
    if Normalize(name) in h then h[Normalize(name)] else []
  }

  /** `headers.set(name, value)`: the name ends with the single value given. */
  function Set(h: HeaderMap, name: string, value: string): (h': HeaderMap)
    ensures Values(h', name) == [value]
    ensures forall other :: Normalize(other) != Normalize(name) ==> Values(h', other) == Values(h, other)
    ensures WellFormed(h) ==> WellFormed(h')
  {
    NormalizeIdempotent(name);
    h[Normalize(name) := [value]]
  }

  /** `headers.append(name, value)`: the value joins the ones already there. */
  function Append(h: HeaderMap, name: string, value: string): (h': HeaderMap)
    ensures Values(h', name) == Values(h, name) + [value]
    ensures forall other :: Normalize(other) != Normalize(name) ==> Values(h', other) == Values(h, other)
    ensures WellFormed(h) ==> WellFormed(h')
  {
    NormalizeIdempotent(name);
    h[Normalize(name) := Values(h, name) + [value]]
  }
}
