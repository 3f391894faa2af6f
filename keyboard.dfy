/** The keyboard state of the demo: a dictionary from twelve key names to
    "held" flags, written only by the key-down and key-up handlers. */
module Keyboard {
  import opened Wrappers

  /** The names the dictionary is created with; key names are case-sensitive. */
  const KeyNames: set<string> := {"W", "A", "S", "D", "Z", "X", "C", "V", "B", "N", "O", "P"}

  /** Keys whose key-down also selects an animation: the i-th selects the i-th asset. */
  const AnimationKeys: seq<string> := ["Z", "X", "C", "V", "B", "N"]

  /** Keys whose key-down only sets their flag. */
  const MovementKeys: set<string> := {"S", "D", "W", "A", "O", "P"}

  type KeyMap = map<string, bool>

  /** Every recognised key, not held. */
  const InitialKeys: KeyMap := map k | k in KeyNames :: false

  /** A key is held when its entry is true; an absent entry reads as not held. */
  predicate Held(keys: KeyMap, k: string)
  {
    k in keys && keys[k]
  }

  /** Which asset a key-down of `k` selects, by index, if any. */
  function AnimationKeyIndex(k: string): (r: Option<nat>)
    ensures r.Some? <==> k in AnimationKeys
    ensures r.Some? ==> r.value < |AnimationKeys| && AnimationKeys[r.value] == k
  {
    if k == "Z" then Some(0)
    else if k == "X" then Some(1)
    else if k == "C" then Some(2)
    else if k == "V" then Some(3)
    else if k == "B" then Some(4)
    else if k == "N" then Some(5)
    else None
  }

  /** The key map after a key-down of `k`. */
  function Press(keys: KeyMap, k: string): (r: KeyMap)
    ensures k in KeyNames ==> Held(r, k)
    ensures k !in KeyNames ==> r == keys
    ensures r.Keys == keys.Keys + (if k in KeyNames then {k} else {})
    ensures forall j :: j in keys && j != k ==> r[j] == keys[j]
  {
    if k in KeyNames then keys[k := true] else keys
  }

  /** The key map after a key-up of `k`. */
  function Release(keys: KeyMap, k: string): (r: KeyMap)
    ensures k in KeyNames ==> k in r && !Held(r, k)
    ensures k !in KeyNames ==> r == keys
    ensures r.Keys == keys.Keys + (if k in KeyNames then {k} else {})
    ensures forall j :: j in keys && j != k ==> r[j] == keys[j]
  {
    if k in KeyNames then keys[k := false] else keys
  }

  /** The two key sets partition the recognised keys. */
  lemma KeySetsPartition()
    ensures forall k :: k in KeyNames <==> k in AnimationKeys || k in MovementKeys
    ensures forall k :: !(k in AnimationKeys && k in MovementKeys)
  {
  }

  /** Releasing a pressed key restores the rest of the map and leaves it not held. */
  lemma PressThenRelease(keys: KeyMap, k: string)
    requires keys.Keys == KeyNames
    ensures Release(Press(keys, k), k) == (if k in KeyNames then keys[k := false] else keys)
    ensures !Held(Release(Press(keys, k), k), k)
  {
  }
}
