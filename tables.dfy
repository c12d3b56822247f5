/** `Dictionary<string, V>` as the modelled code uses it: a table of key-value pairs in
    insertion order (the order in which a dictionary that never loses an entry enumerates
    them), with each key at most once. */
module Tables {
  import opened Errors
  import opened DotNet

  /** The keys of a table, in insertion order. */
  function Keys<V>(t: seq<(string, V)>): (r: seq<string>)
    ensures |r| == |t| && forall k :: 0 <= k < |t| ==> r[k] == t[k].0
  {
    seq(|t|, k requires 0 <= k < |t| => t[k].0)
  }

  /** The set of keys of a table, which `Count` counts. */
  function KeySet<V>(t: seq<(string, V)>): set<string> {
    set k | 0 <= k < |t| :: t[k].0
  }

  predicate Distinct<T(==)>(s: seq<T>) {
    forall i, j :: 0 <= i < j < |s| ==> s[i] != s[j]
  }

  /** A table whose keys are all different: what a dictionary holds. */
  predicate IsTable<V>(t: seq<(string, V)>) {
    Distinct(Keys(t))
  }

  /** `TryGetValue`: the value stored under `key`, if any. */
  function Find<V>(t: seq<(string, V)>, key: string): (r: Option<V>)
    ensures r.Some? <==> key in Keys(t)
    ensures r.Some? ==> exists k :: 0 <= k < |t| && t[k] == (key, r.value)
  {
    match IndexOf(Keys(t), key)
    case Some(i) => Some(t[i].1)
    case None => None
  }

  /** `TryAdd`: the table with the pair appended, or `None` when the key is present. */
  function TryAdd<V>(t: seq<(string, V)>, key: string, value: V): (r: Option<seq<(string, V)>>)
    ensures r.None? <==> key in Keys(t)
    ensures r.Some? ==> r.value == t + [(key, value)]
  {
    if key in Keys(t) then None else Some(t + [(key, value)])
  }

  lemma KeysAppend<V>(t: seq<(string, V)>, key: string, value: V)
    ensures Keys(t + [(key, value)]) == Keys(t) + [key]
  {
  }

  /** An added pair keeps the keys distinct, is found under its key, and hides nothing
      found before. */
  lemma TryAddFound<V>(t: seq<(string, V)>, key: string, value: V, other: string)
    requires IsTable(t) && key !in Keys(t)
    ensures IsTable(t + [(key, value)])
    ensures Find(t + [(key, value)], other) == if other == key then Some(value) else Find(t, other)
  {
    var u := t + [(key, value)];
    KeysAppend(t, key, value);
    if other == key {
      assert IndexOf(Keys(u), key) == Some(|t|);
    } else if other in Keys(t) {
      var i := IndexOf(Keys(t), other).value;
      assert Keys(u)[i] == other;
      assert IndexOf(Keys(u), other) == Some(i);
    }
  }

  /** In a table each pair is found under its own key. */
  lemma FindEntry<V>(t: seq<(string, V)>, k: nat)
    requires IsTable(t) && k < |t|
    ensures Find(t, t[k].0) == Some(t[k].1)
  {
  }

  /** The number of pairs of a table is the number of its keys. */
  lemma {:induction false} CountIsKeys<V>(t: seq<(string, V)>)
    requires IsTable(t)
    ensures |KeySet(t)| == |t|
    decreases |t|
  {
    if t != [] {
      var front := t[..|t| - 1];
      var last := t[|t| - 1];
      assert t == front + [last];
      assert IsTable(front) by {
        forall i, j | 0 <= i < j < |front|
          ensures Keys(front)[i] != Keys(front)[j]
        {
          assert Keys(t)[i] != Keys(t)[j];
        }
      }
      CountIsKeys(front);
      assert last.0 !in KeySet(front);
      assert KeySet(t) == KeySet(front) + {last.0};
    }
  }
}
