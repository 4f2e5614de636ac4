/** A JavaScript `Map` as its list of entries in insertion order. `set` on a
    present key replaces the value in place; on an absent key it appends;
    `delete` removes the entry and keeps the order of the others. */
module OrderedMap {
  import opened Wrappers

  predicate UniqueKeys<V>(m: seq<(string, V)>) {
    forall i, j :: 0 <= i < j < |m| ==> m[i].0 != m[j].0
  }

  predicate HasKey<V>(m: seq<(string, V)>, k: string) {
    exists i :: 0 <= i < |m| && m[i].0 == k
  }

  function Keys<V>(m: seq<(string, V)>): (r: seq<string>)
    ensures |r| == |m|
    ensures forall i :: 0 <= i < |m| ==> r[i] == m[i].0
  {
    if m == [] then [] else [m[0].0] + Keys(m[1..])
  }

  /** `m.get(k)` */
  function Get<V>(m: seq<(string, V)>, k: string): (r: Option<V>)
    ensures r.Some? <==> HasKey(m, k)
    ensures r.Some? ==> exists i :: 0 <= i < |m| && m[i] == (k, r.value)
  {
    if m == [] then None
    else if m[0].0 == k then
      assert m[0] == (k, m[0].1);
      Some(m[0].1)
    else
      var r := Get(m[1..], k);
      assert forall i :: 0 <= i < |m| - 1 ==> m[1..][i] == m[i + 1];
      assert HasKey(m, k) ==> HasKey(m[1..], k) by {
        if HasKey(m, k) {
          var i :| 0 <= i < |m| && m[i].0 == k;
          assert m[1..][i - 1].0 == k;
        }
      }
      r
  }

  lemma GetAt<V>(m: seq<(string, V)>, i: nat)
    requires UniqueKeys(m) && i < |m|
    ensures Get(m, m[i].0) == Some(m[i].1)
  {
    if i > 0 {
      assert m[0].0 != m[i].0;
      assert UniqueKeys(m[1..]) by {
        forall a, b | 0 <= a < b < |m| - 1 ensures m[1..][a].0 != m[1..][b].0 {
          assert m[1..][a] == m[a + 1] && m[1..][b] == m[b + 1];
        }
      }
      GetAt(m[1..], i - 1);
    }
  }

  /** `m.set(k, v)` */
  function Set<V>(m: seq<(string, V)>, k: string, v: V): (r: seq<(string, V)>)
    ensures Get(r, k) == Some(v)
    ensures forall k' :: k' != k ==> Get(r, k') == Get(m, k')
    ensures !HasKey(m, k) ==> r == m + [(k, v)]
  {
    if m == [] then [(k, v)]
    else if m[0].0 == k then [(k, v)] + m[1..]
    else
      var t := Set(m[1..], k, v);
      TailKeys(m, k);
      assert m == [m[0]] + m[1..];
      [m[0]] + t
  }

  /** Setting a present key keeps the insertion order. */
  lemma {:induction false} SetKeepsKeys<V>(m: seq<(string, V)>, k: string, v: V)
    requires HasKey(m, k)
    ensures Keys(Set(m, k, v)) == Keys(m)
  {
    if m[0].0 != k {
      TailKeys(m, k);
      SetKeepsKeys(m[1..], k, v);
    }
  }

  lemma {:induction false} SetUnique<V>(m: seq<(string, V)>, k: string, v: V)
    requires UniqueKeys(m)
    ensures UniqueKeys(Set(m, k, v))
  {
    var r := Set(m, k, v);
    if HasKey(m, k) {
      SetKeepsKeys(m, k, v);
      forall i, j | 0 <= i < j < |r| ensures r[i].0 != r[j].0 {
        assert Keys(r)[i] == Keys(m)[i] && Keys(r)[j] == Keys(m)[j];
      }
    } else {
      forall i, j | 0 <= i < j < |r| ensures r[i].0 != r[j].0 {
        if j == |m| {
          assert r[i] == m[i];
        }
      }
    }
  }

  lemma TailKeys<V>(m: seq<(string, V)>, k: string)
    requires m != [] && m[0].0 != k
    ensures HasKey(m, k) <==> HasKey(m[1..], k)
  {
    if HasKey(m, k) {
      var i :| 0 <= i < |m| && m[i].0 == k;
      assert m[1..][i - 1].0 == k;
    }
    if HasKey(m[1..], k) {
      var i :| 0 <= i < |m| - 1 && m[1..][i].0 == k;
      assert m[i + 1].0 == k;
    }
  }

  lemma TailUnique<V>(m: seq<(string, V)>)
    requires UniqueKeys(m) && m != []
    ensures UniqueKeys(m[1..])
  {
    forall a, b | 0 <= a < b < |m| - 1 ensures m[1..][a].0 != m[1..][b].0 {
      assert m[1..][a] == m[a + 1] && m[1..][b] == m[b + 1];
    }
  }

  /** `m.delete(k)` */
  function Delete<V>(m: seq<(string, V)>, k: string): (r: seq<(string, V)>)
    ensures Get(r, k) == None
    ensures forall k' :: k' != k ==> Get(r, k') == Get(m, k')
    ensures |r| <= |m|
    ensures !HasKey(m, k) ==> r == m
    ensures UniqueKeys(m) ==> UniqueKeys(r)
    ensures forall x :: x in r ==> x in m
  {
    if m == [] then []
    else
      var t := Delete(m[1..], k);
      assert forall i :: 0 <= i < |m| - 1 ==> m[1..][i] == m[i + 1];
      assert !HasKey(m, k) ==> !HasKey(m[1..], k) by {
        if HasKey(m[1..], k) {
          var i :| 0 <= i < |m| - 1 && m[1..][i].0 == k;
          assert m[i + 1].0 == k;
        }
      }
      if m[0].0 == k then t
      else
        var r := [m[0]] + t;
        assert r[1..] == t;
        assert UniqueKeys(m) ==> UniqueKeys(r) by {
          if UniqueKeys(m) {
            assert UniqueKeys(m[1..]);
            forall j | 0 < j < |r| ensures r[0].0 != r[j].0 {
              assert r[j] in t;
              assert r[j] in m[1..];
            }
          }
        }
        assert m == [m[0]] + m[1..];
        r
  }

  /** Deleting the oldest key of a map drops its first entry. */
  lemma DeleteFirst<V>(m: seq<(string, V)>)
    requires UniqueKeys(m) && m != []
    ensures Delete(m, m[0].0) == m[1..]
  {
    assert forall i :: 0 <= i < |m| - 1 ==> m[1..][i].0 == m[i + 1].0;
  }

  /** Deleting any present key drops exactly its entry: the others keep
      their insertion order. */
  lemma {:induction false} DeleteAt<V>(m: seq<(string, V)>, i: nat)
    requires UniqueKeys(m) && i < |m|
    ensures Delete(m, m[i].0) == m[..i] + m[i + 1..]
  {
    if i == 0 {
      DeleteFirst(m);
      assert m[..0] + m[1..] == m[1..];
    } else {
      var t := m[1..];
      assert t[i - 1] == m[i];
      TailUnique(m);
      DeleteAt(t, i - 1);
      assert m[0].0 != m[i].0;
      DeleteStep(m, m[i].0);
      SpliceTail(m, i);
    }
  }

  /** Deleting a key other than the first keeps the first entry. */
  lemma DeleteStep<V>(m: seq<(string, V)>, k: string)
    requires m != [] && m[0].0 != k
    ensures Delete(m, k) == [m[0]] + Delete(m[1..], k)
  {
  }

  /** Putting the first entry back in front of a tail with one entry cut. */
  lemma SpliceTail<V>(m: seq<(string, V)>, i: nat)
    requires 0 < i < |m|
    ensures [m[0]] + (m[1..][..i - 1] + m[1..][i..]) == m[..i] + m[i + 1..]
  {
    assert m[1..][..i - 1] == m[1..i] && m[1..][i..] == m[i + 1..];
    assert m[..i] == [m[0]] + m[1..i];
  }
}
