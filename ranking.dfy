/**
 * Python's `min(items, key=...)`: the items are scanned in order and a later
 * item replaces the current best only when its key is strictly smaller, so the
 * FIRST item holding a least key wins. Keys are numbers or `float('inf')`.
 */
module Ranking {

  datatype Key = Finite(value: real) | Infinity

  /** Strict `<` on keys; `Infinity` is below nothing. */
  predicate Below(a: Key, b: Key) {
    a.Finite? && (b.Infinity? || a.value < b.value)
  }

  /** `<=` on keys. */
  predicate AtMost(a: Key, b: Key) {
    !Below(b, a)
  }

  /** The position Python's `min` returns: least key, and every earlier key strictly larger. */
  function FirstMinIndex(keys: seq<Key>): (k: nat)
    requires |keys| > 0
    ensures k < |keys|
    ensures forall i :: 0 <= i < |keys| ==> AtMost(keys[k], keys[i])
    ensures forall i :: 0 <= i < k ==> Below(keys[k], keys[i])
    decreases |keys|
  {
    if |keys| == 1 then 0
    else
      var k := FirstMinIndex(keys[..|keys| - 1]);
      if Below(keys[|keys| - 1], keys[k]) then |keys| - 1 else k
  }

  /** The two properties above single out one position: the first-minimum rule is a full specification. */
  lemma FirstMinIndexUnique(keys: seq<Key>, j: nat)
    requires j < |keys|
    requires forall i :: 0 <= i < |keys| ==> AtMost(keys[j], keys[i])
    requires forall i :: 0 <= i < j ==> Below(keys[j], keys[i])
    ensures FirstMinIndex(keys) == j
  {
  }
}
