/**
 * A Java `Map<String, V>` seen through its entry set: (key, value) pairs in
 * iteration order, keys distinct. The order of the list stands for the map's
 * iteration order wherever the source loops over `entrySet()` or `keySet()`.
 */
module Assoc {
  import opened Base

  type Entries<V> = seq<(string, V)>

  predicate KeysDistinct<V>(e: Entries<V>) {
    forall i, j :: 0 <= i < j < |e| ==> e[i].0 != e[j].0
  }

  predicate HasKey<V>(e: Entries<V>, k: string) {
    exists i :: 0 <= i < |e| && e[i].0 == k
  }

  /** `map.keySet()`, in iteration order. */
  function Keys<V>(e: Entries<V>): (keys: seq<string>)
    ensures |keys| == |e|
    ensures forall i :: 0 <= i < |e| ==> keys[i] == e[i].0
    ensures forall k :: k in keys <==> HasKey(e, k)
  {
    seq(|e|, i requires 0 <= i < |e| => e[i].0)
  }

  /** `map.get(k)`: the value of the entry with key `k`, or null. */
  function Get<V>(e: Entries<V>, k: string): (r: Option<V>)
    ensures r.None? <==> !HasKey(e, k)
    ensures r.Some? ==> exists i :: 0 <= i < |e| && e[i].0 == k && e[i].1 == r.value
  {
    if |e| == 0 then None
    else if e[0].0 == k then Some(e[0].1)
    else
      var r := Get(e[1..], k);
      assert r.Some? ==> exists i :: 1 <= i < |e| && e[i].0 == k && e[i].1 == r.value by {
        if r.Some? {
          var i :| 0 <= i < |e[1..]| && e[1..][i].0 == k && e[1..][i].1 == r.value;
          assert e[i + 1] == e[1..][i];
        }
      }
      assert !HasKey(e[1..], k) ==> !HasKey(e, k) by {
        if HasKey(e, k) {
          var i :| 0 <= i < |e| && e[i].0 == k;
          assert i > 0 && e[1..][i - 1] == e[i];
        }
      }
      r
  }

  /** With distinct keys, looking an entry's key up yields that entry's value. */
  lemma {:induction false} GetEntry<V>(e: Entries<V>, i: nat)
    requires KeysDistinct(e) && i < |e|
    ensures Get(e, e[i].0) == Some(e[i].1)
  {
    if i > 0 {
      assert e[0].0 != e[i].0;
      assert e[1..][i - 1] == e[i];
      GetEntry(e[1..], i - 1);
    }
  }

  /** The items of a list paired with their keys, in list order: the entries `toMap(key, identity)` collects. */
  function KeyedBy<V>(items: seq<V>, key: V -> string): (pairs: Entries<V>)
    ensures |pairs| == |items|
    ensures forall i :: 0 <= i < |items| ==> pairs[i] == (key(items[i]), items[i])
  {
    seq(|items|, i requires 0 <= i < |items| => (key(items[i]), items[i]))
  }

  /**
   * Where `toMap` stops: the first entry whose key already occurs before it.
   * The entries before it have distinct keys, so no earlier entry repeats one.
   */
  function FirstRepeat<V>(pairs: seq<(string, V)>): (r: Option<nat>)
    ensures r.None? <==> KeysDistinct(pairs)
    ensures r.Some? ==> r.value < |pairs| && HasKey(pairs[..r.value], pairs[r.value].0)
    ensures r.Some? ==> KeysDistinct(pairs[..r.value])
  {
    if |pairs| == 0 then None
    else
      var last := |pairs| - 1;
      var front := pairs[..last];
      var earlier := FirstRepeat(front);
      if earlier.Some? then
        var j := earlier.value;
        assert front[..j] == pairs[..j];
        assert front[j] == pairs[j];
        assert !KeysDistinct(pairs) by {
          var i :| 0 <= i < j && front[..j][i].0 == front[j].0;
          assert pairs[i].0 == pairs[j].0;
        }
        earlier
      else if HasKey(front, pairs[last].0) then
        assert !KeysDistinct(pairs) by {
          var i :| 0 <= i < |front| && front[i].0 == pairs[last].0;
          assert pairs[i].0 == pairs[last].0;
        }
        Some(last)
      else
        assert KeysDistinct(pairs) by {
          forall i, j | 0 <= i < j < |pairs| ensures pairs[i].0 != pairs[j].0 {
            if j < last {
              assert front[i] == pairs[i] && front[j] == pairs[j];
            } else {
              assert front[i] == pairs[i];
            }
          }
        }
        None
  }

  /**
   * `Collectors.toMap`: builds the map, or throws on the first repeated key
   * with a message that names that key.
   */
  function FromList<V>(pairs: seq<(string, V)>): (r: Result<Entries<V>>)
    ensures r.Ok? <==> KeysDistinct(pairs)
    ensures r.Ok? ==> r.value == pairs
    ensures r.Err? ==> FirstRepeat(pairs).Some? && r.message == DuplicateKey(pairs[FirstRepeat(pairs).value].0)
  {
    match FirstRepeat(pairs)
    case None => Ok(pairs)
    case Some(j) => Err(DuplicateKey(pairs[j].0))
  }

  /** The message of the exception `toMap` throws on a repeated key, up to the merged values. */
  function DuplicateKey(key: string): string {
    "Duplicate key " + key
  }

  /** `map.getOrDefault(k, d)`. */
  function GetOrDefault<V>(e: Entries<V>, k: string, d: Option<V>): (r: Option<V>)
    ensures HasKey(e, k) ==> r == Get(e, k)
    ensures !HasKey(e, k) ==> r == d
  {
    match Get(e, k)
    case Some(v) => Some(v)
    case None => d
  }
}
