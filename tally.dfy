/** Frequency tables: the `reduce((acc, k) => { acc[k] = (acc[k] || 0) + 1 }, {})`
    of the TypeScript code and pandas' `value_counts()` both count how often each
    key occurs; `value_counts().sort_index()` also lists the keys in ascending order. */
module Tally {

  /** Counts one more occurrence of `k`. */
  function Add<K>(m: map<K, nat>, k: K): map<K, nat> {
    m[k := if k in m then m[k] + 1 else 1]
  }

  /** Counting `k` once more gives it a count one higher than before (one when it had none)
      and leaves every other count as it was. */
  lemma AddCounts<K>(m: map<K, nat>, k: K)
    ensures Add(m, k).Keys == m.Keys + {k}
    ensures Add(m, k)[k] == (if k in m then m[k] else 0) + 1
    ensures forall k' | k' in m && k' != k :: Add(m, k)[k'] == m[k']
  {
  }

  /** The frequency table of `keys`, built by adding the keys one at a time, left to right. */
  function Tally<K(!new)>(keys: seq<K>): (counts: map<K, nat>)
    ensures forall k :: k in counts <==> k in keys
    ensures forall k | k in counts :: counts[k] == multiset(keys)[k] >= 1
  {
    if |keys| == 0 then map[]
    else
      var init, last := keys[..|keys| - 1], keys[|keys| - 1];
      assert keys == init + [last];
      Add(Tally(init), last)
  }

  /** The sum of the counts of a table. */
  ghost function Total<K>(m: map<K, nat>): nat
    decreases |m|
  {
    if |m| == 0 then 0
    else
      var k :| k in m;
      assert |m - {k}| < |m| by { assert m.Keys - {k} < m.Keys; }
      m[k] + Total(m - {k})
  }

  /** The key `Total` takes first. */
  lemma TotalFirst<K>(m: map<K, nat>, k: K) returns (j: K)
    requires k in m
    ensures j in m && Total(m) == m[j] + Total(m - {j})
  {
    assert |m| != 0 by { assert k in m.Keys; }
    j :| j in m && Total(m) == m[j] + Total(m - {j});
  }

  /** `Total` does not depend on which key it takes first. */
  lemma {:induction false} TotalRemove<K>(m: map<K, nat>, k: K)
    requires k in m
    ensures Total(m) == m[k] + Total(m - {k})
    decreases |m|
  {
    var j := TotalFirst(m, k);
    if j != k {
      var mj, mk := m - {j}, m - {k};
      assert |mj| < |m| by { assert m.Keys - {j} < m.Keys; }
      assert |mk| < |m| by { assert m.Keys - {k} < m.Keys; }
      TotalRemove(mj, k);
      TotalRemove(mk, j);
      assert mj - {k} == mk - {j};
    }
  }

  /** Counting one more key adds one to the total. */
  lemma {:induction false} TotalAdd<K>(m: map<K, nat>, k: K)
    ensures Total(Add(m, k)) == Total(m) + 1
  {
    var m' := Add(m, k);
    TotalRemove(m', k);
    if k in m {
      TotalRemove(m, k);
      assert m' - {k} == m - {k};
    } else {
      assert m' - {k} == m;
    }
  }

  /** The counts of a frequency table add up to the number of keys counted. */
  lemma {:induction false} TallyTotal<K(!new)>(keys: seq<K>)
    ensures Total(Tally(keys)) == |keys|
  {
    if |keys| > 0 {
      TallyTotal(keys[..|keys| - 1]);
      TotalAdd(Tally(keys[..|keys| - 1]), keys[|keys| - 1]);
    }
  }

  /** A frequency table depends only on how often each key occurs, not on their order. */
  lemma TallyPermutation<K(!new)>(a: seq<K>, b: seq<K>)
    requires multiset(a) == multiset(b)
    ensures Tally(a) == Tally(b)
  {
    var ta, tb := Tally(a), Tally(b);
    forall k ensures k in a <==> k in b {
      assert k in a <==> k in multiset(a);
      assert k in b <==> k in multiset(b);
    }
    assert ta.Keys == tb.Keys;
  }

  /** Counting a list that holds one more `k` than another adds one to the count of `k`. */
  lemma TallyOneMore<K(!new)>(a: seq<K>, b: seq<K>, k: K)
    requires multiset(b) == multiset(a) + multiset{k}
    ensures Tally(b) == Add(Tally(a), k)
  {
    var c := a + [k];
    assert multiset(c) == multiset(b);
    TallyPermutation(b, c);
    assert c[..|c| - 1] == a;
  }

  // ----- value_counts().sort_index().to_dict(): a table of (key, count) pairs in key order

  predicate StrictlyAscending(table: seq<(int, nat)>) {
    forall i, j :: 0 <= i < j < |table| ==> table[i].0 < table[j].0
  }

  /** The dictionary a table of pairs stands for. */
  function ToMap(table: seq<(int, nat)>): (m: map<int, nat>)
    ensures forall x | x in m :: exists i :: 0 <= i < |table| && table[i].0 == x
  {
    if |table| == 0 then map[]
    else
      var rest := ToMap(table[1..]);
      assert forall x | x in rest :: exists i :: 0 <= i < |table| && table[i].0 == x by {
        forall x | x in rest ensures exists i :: 0 <= i < |table| && table[i].0 == x {
          var i :| 0 <= i < |table[1..]| && table[1..][i].0 == x;
          assert table[i + 1].0 == x;
        }
      }
      rest[table[0].0 := table[0].1]
  }

  /** The sum of the counts of a table of pairs. */
  function SumCounts(table: seq<(int, nat)>): nat {
    if |table| == 0 then 0 else table[0].1 + SumCounts(table[1..])
  }

  /** Counts one more occurrence of `k` in a key-ordered table. */
  function Bump(table: seq<(int, nat)>, k: int): (r: seq<(int, nat)>)
    requires StrictlyAscending(table)
    ensures |r| > 0 && StrictlyAscending(r)
    ensures r[0].0 == if |table| == 0 || k < table[0].0 then k else table[0].0
    ensures SumCounts(r) == SumCounts(table) + 1
  {
    if |table| == 0 then [(k, 1)]
    else if k == table[0].0 then
      var r := [(k, table[0].1 + 1)] + table[1..];
      assert r[1..] == table[1..];
      r
    else if k < table[0].0 then
      var r := [(k, 1)] + table;
      assert r[1..] == table;
      r
    else
      var rest := Bump(table[1..], k);
      var r := [table[0]] + rest;
      assert r[1..] == rest;
      r
  }

  /** Bumping `k` in a table adds one to the count of `k` in the dictionary it stands for. */
  lemma {:induction false} BumpToMap(table: seq<(int, nat)>, k: int)
    requires StrictlyAscending(table)
    ensures ToMap(Bump(table, k)) == Add(ToMap(table), k)
  {
    var r := Bump(table, k);
    if |table| == 0 {
    } else if k == table[0].0 {
      assert r[1..] == table[1..];
    } else if k < table[0].0 {
      assert r[1..] == table;
      assert k !in ToMap(table);
    } else {
      var rest := Bump(table[1..], k);
      assert r[1..] == rest;
      BumpToMap(table[1..], k);
      var m1 := ToMap(table[1..]);
      assert ToMap(table) == m1[table[0].0 := table[0].1];
      assert ToMap(r) == Add(m1, k)[table[0].0 := table[0].1];
      AddCommutes(m1, k, table[0].0, table[0].1);
    }
  }

  /** Counting `k` commutes with setting the count of a different key. */
  lemma AddCommutes(m: map<int, nat>, k: int, x: int, c: nat)
    requires k != x
    ensures Add(m, k)[x := c] == Add(m[x := c], k)
  {
    var a, b := Add(m, k)[x := c], Add(m[x := c], k);
    assert a.Keys == b.Keys;
    forall y | y in a ensures a[y] == b[y] {
    }
  }

  /** `value_counts().sort_index()` of `xs`, computed by bumping each value in turn. */
  function SortedCounts(xs: seq<int>): (table: seq<(int, nat)>)
    ensures StrictlyAscending(table)
    ensures ToMap(table) == Tally(xs)
    ensures SumCounts(table) == |xs|
  {
    if |xs| == 0 then []
    else
      var init := SortedCounts(xs[..|xs| - 1]);
      BumpToMap(init, xs[|xs| - 1]);
      Bump(init, xs[|xs| - 1])
  }
}
