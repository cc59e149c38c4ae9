/**
 * JavaScript objects used as dictionaries (`Record<string, V>`), as
 * association lists of (key, value) pairs in the order the object lists
 * its keys.
 */
module Records {
  import opened Wrappers

  /** The record has an entry under `k`. */
  predicate HasKey<V>(t: seq<(string, V)>, k: string) {
    exists i :: 0 <= i < |t| && t[i].0 == k
  }

  /** An object literal names each key once. */
  predicate DistinctKeys<V>(t: seq<(string, V)>) {
    forall i, j :: 0 <= i < j < |t| ==> t[i].0 != t[j].0
  }

  /** `record[k]`: the value of the first entry under `k`, undefined (None) if there is none. */
  function Lookup<V>(t: seq<(string, V)>, k: string): (r: Option<V>)
    ensures r.Some? <==> HasKey(t, k)
    ensures r.Some? ==> exists i :: 0 <= i < |t| && t[i].0 == k && t[i].1 == r.value
  {
    if t == [] then None
    else if t[0].0 == k then Some(t[0].1)
    else
      var rest := Lookup(t[1..], k);
      assert forall i :: 0 < i < |t| ==> t[i] == t[1..][i - 1];
      rest
  }

  /** Looking a key up in two records laid end to end reads the first record that has it. */
  lemma {:induction false} LookupAppend<V>(a: seq<(string, V)>, b: seq<(string, V)>, k: string)
    ensures Lookup(a + b, k) == if HasKey(a, k) then Lookup(a, k) else Lookup(b, k)
  {
    if a == [] {
      assert a + b == b;
    } else if a[0].0 != k {
      assert (a + b)[1..] == a[1..] + b;
      LookupAppend(a[1..], b, k);
    }
  }

  /** With distinct keys, every entry is what a lookup of its key reads. */
  lemma {:induction false} LookupDistinct<V>(t: seq<(string, V)>, i: nat)
    requires DistinctKeys(t) && i < |t|
    ensures Lookup(t, t[i].0) == Some(t[i].1)
  {
    if i > 0 {
      assert t[0].0 != t[i].0;
      assert DistinctKeys(t[1..]) by {
        forall a, b | 0 <= a < b < |t[1..]| ensures t[1..][a].0 != t[1..][b].0 {
          assert t[1..][a] == t[a + 1] && t[1..][b] == t[b + 1];
        }
      }
      LookupDistinct(t[1..], i - 1);
    }
  }
}
