/** Searches over stacks of scopes, shared by every symbol table of the model.
    A stack is a sequence of scopes; which end is the innermost is fixed by each table. */
module Scopes {
  import opened Wrappers

  /** Whether some scope of the stack holds `k` (Rust's `iter().any(|s| s.contains(k))`). */
  function AnyHas<K>(sc: seq<set<K>>, k: K): (r: bool)
    ensures r <==> exists i :: 0 <= i < |sc| && k in sc[i]
  {
    if sc == [] then false
    else k in sc[0] || AnyHas(sc[1..], k)
  }

  /** Value of `k` in the first scope, from index 0 on, that binds it (Rust's `iter().find_map`). */
  function FindFirst<K, V>(st: seq<map<K, V>>, k: K): (r: Option<V>)
    ensures r.None? <==> forall i :: 0 <= i < |st| ==> k !in st[i]
    ensures r.Some? ==> exists i :: 0 <= i < |st| && k in st[i] && st[i][k] == r.value
                                    && forall j :: 0 <= j < i ==> k !in st[j]
  {
    if st == [] then None
    else if k in st[0] then Some(st[0][k])
    else
      var r := FindFirst(st[1..], k);
      assert r.Some? ==> exists i :: 0 < i < |st| && k in st[i] && st[i][k] == r.value
                                     && forall j :: 0 <= j < i ==> k !in st[j] by {
        if r.Some? {
          var i :| 0 <= i < |st| - 1 && k in st[1..][i] && st[1..][i][k] == r.value
                   && forall j :: 0 <= j < i ==> k !in st[1..][j];
          assert forall j :: 0 <= j < i + 1 ==> k !in st[j] by {
            forall j | 0 <= j < i + 1 ensures k !in st[j] {
              if j > 0 { assert st[j] == st[1..][j - 1]; }
            }
          }
        }
      }
      r
  }

  /** Value of `k` in the last scope that binds it (Rust's `iter().rev().find_map`). */
  function FindLast<K, V>(st: seq<map<K, V>>, k: K): (r: Option<V>)
    ensures r.None? <==> forall i :: 0 <= i < |st| ==> k !in st[i]
    ensures r.Some? ==> exists i :: 0 <= i < |st| && k in st[i] && st[i][k] == r.value
                                    && forall j :: i < j < |st| ==> k !in st[j]
  {
    if st == [] then None
    else if k in st[|st| - 1] then Some(st[|st| - 1][k])
    else
      var init := st[..|st| - 1];
      var r := FindLast(init, k);
      assert r.None? <==> forall i :: 0 <= i < |st| ==> k !in st[i] by {
        assert forall i :: 0 <= i < |init| ==> st[i] == init[i];
      }
      assert r.Some? ==> exists i :: 0 <= i < |st| && k in st[i] && st[i][k] == r.value
                                     && forall j :: i < j < |st| ==> k !in st[j] by {
        if r.Some? {
          var i :| 0 <= i < |init| && k in init[i] && init[i][k] == r.value
                   && forall j :: i < j < |init| ==> k !in init[j];
          assert st[i] == init[i];
          forall j | i < j < |st| ensures k !in st[j] {
            if j < |init| {
              assert st[j] == init[j];
            }
          }
        }
      }
      r
  }

  /** Scopes that lie under a given binding index do not change what is found above it:
      the first binding is the one of the innermost scope that has the key. */
  lemma {:induction false} FindFirstAt<K, V>(st: seq<map<K, V>>, k: K, i: nat)
    requires i < |st| && k in st[i]
    requires forall j :: 0 <= j < i ==> k !in st[j]
    ensures FindFirst(st, k) == Some(st[i][k])
  {
    if i > 0 {
      assert st[1..][i - 1] == st[i];
      FindFirstAt(st[1..], k, i - 1);
    }
  }

  /** The binding found from the end is the one of the last scope that has the key: the
      scopes before it do not change what is found. */
  lemma {:induction false} FindLastAt<K, V>(st: seq<map<K, V>>, k: K, i: nat)
    requires i < |st| && k in st[i]
    requires forall j :: i < j < |st| ==> k !in st[j]
    ensures FindLast(st, k) == Some(st[i][k])
    decreases |st|
  {
    if i < |st| - 1 {
      var init := st[..|st| - 1];
      assert init[i] == st[i];
      assert forall j :: i < j < |init| ==> init[j] == st[j];
      FindLastAt(init, k, i);
    }
  }
}
