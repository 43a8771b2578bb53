/**
 * Insertion-ordered dictionaries, the model of a Python `dict` (and of any table whose
 * iteration order is observable): an association list with distinct keys. Assigning to a
 * present key keeps its position; assigning to a new key appends it; deleting removes it.
 */
module Dict {
  import opened Wrappers

  type Dict<K, V> = seq<(K, V)>

  function Keys<K, V>(d: Dict<K, V>): (ks: seq<K>)
    ensures |ks| == |d|
    ensures forall i :: 0 <= i < |d| ==> ks[i] == d[i].0
  {
    if d == [] then [] else [d[0].0] + Keys(d[1..])
  }

  predicate HasKey<K(==), V>(d: Dict<K, V>, k: K) {
    exists i :: 0 <= i < |d| && d[i].0 == k
  }

  /** No key occurs twice: what makes an association list a dictionary. */
  predicate Distinct<K(==), V>(d: Dict<K, V>) {
    forall i, j :: 0 <= i < j < |d| ==> d[i].0 != d[j].0
  }

  /** Position of `k`, the unique one when the keys are distinct. */
  function IndexOf<K(==), V>(d: Dict<K, V>, k: K): (i: nat)
    requires HasKey(d, k)
    ensures i < |d| && d[i].0 == k
    ensures forall j :: 0 <= j < i ==> d[j].0 != k
  {
    if d[0].0 == k then 0
    else
      assert HasKey(d[1..], k) by {
        var j :| 0 <= j < |d| && d[j].0 == k;
        assert d[1..][j - 1].0 == k;
      }
      1 + IndexOf(d[1..], k)
  }

  /** `d[k]` (the first binding; the only one in a dictionary). */
  function Get<K(==), V>(d: Dict<K, V>, k: K): V
    requires HasKey(d, k)
  {
    d[IndexOf(d, k)].1
  }

  /** `d.get(k)`. */
  function Lookup<K(==), V>(d: Dict<K, V>, k: K): (r: Option<V>)
    ensures r.Some? <==> HasKey(d, k)
    ensures r.Some? ==> r.value == Get(d, k)
  {
    if HasKey(d, k) then Some(Get(d, k)) else None
  }

  /** `d[k] = v`: replaces in place when present, appends otherwise. */
  function Put<K(==), V>(d: Dict<K, V>, k: K, v: V): (r: Dict<K, V>)
    ensures HasKey(d, k) ==> |r| == |d| && r == d[IndexOf(d, k) := (k, v)]
    ensures !HasKey(d, k) ==> r == d + [(k, v)]
  {
    if HasKey(d, k) then d[IndexOf(d, k) := (k, v)] else d + [(k, v)]
  }

  /** `del d[k]` / `d.pop(k)`: drops every binding of `k`. */
  function Remove<K(==), V>(d: Dict<K, V>, k: K): (r: Dict<K, V>)
    ensures |r| <= |d|
    ensures forall i :: 0 <= i < |r| ==> r[i].0 != k
  {
    if d == [] then []
    else if d[0].0 == k then Remove(d[1..], k)
    else [d[0]] + Remove(d[1..], k)
  }

  /** `a.update(b)`: every binding of `b`, in `b`'s order, put into `a`. */
  function Update<K(==), V>(a: Dict<K, V>, b: Dict<K, V>): Dict<K, V>
    decreases |b|
  {
    if b == [] then a else Update(Put(a, b[0].0, b[0].1), b[1..])
  }

  /** `{key(x): x for x in xs}`: later duplicates win and keep the first position. */
  function FromList<K(==), V>(xs: seq<(K, V)>): Dict<K, V> {
    Update([], xs)
  }

  /** The dictionary's contents as a `map`, for order-insensitive statements. */
  function ToMap<K(==,!new), V>(d: Dict<K, V>): (m: map<K, V>)
    ensures forall k :: k in m <==> HasKey(d, k)
  {
    if d == [] then map[]
    else
      var rest := ToMap(d[1..]);
      assert forall k :: HasKey(d, k) <==> k == d[0].0 || HasKey(d[1..], k) by {
        forall k ensures HasKey(d, k) <==> k == d[0].0 || HasKey(d[1..], k) {
          if HasKey(d, k) && k != d[0].0 {
            var j :| 0 <= j < |d| && d[j].0 == k;
            assert d[1..][j - 1].0 == k;
          }
          if HasKey(d[1..], k) {
            var j :| 0 <= j < |d[1..]| && d[1..][j].0 == k;
            assert d[j + 1].0 == k;
          }
        }
      }
      rest[d[0].0 := d[0].1]
  }

  // ---------------------------------------------------------------- lemmas

  lemma {:induction false} PutDistinct<K, V>(d: Dict<K, V>, k: K, v: V)
    requires Distinct(d)
    ensures Distinct(Put(d, k, v))
    ensures HasKey(Put(d, k, v), k) && Get(Put(d, k, v), k) == v
    ensures forall k' :: HasKey(Put(d, k, v), k') <==> HasKey(d, k') || k' == k
    ensures forall k' :: k' != k && HasKey(d, k') ==> Get(Put(d, k, v), k') == Get(d, k')
  {
    var r := Put(d, k, v);
    if HasKey(d, k) {
      var i := IndexOf(d, k);
      assert r[i].0 == k;
      forall k' | HasKey(r, k') ensures HasKey(d, k') {
        var j :| 0 <= j < |r| && r[j].0 == k';
        assert d[j].0 == k';
      }
      forall k' | HasKey(d, k') ensures HasKey(r, k') {
        var j :| 0 <= j < |d| && d[j].0 == k';
        assert r[j].0 == k';
      }
      assert IndexOf(r, k) == i by {
        var x := IndexOf(r, k);
      }
      forall k' | k' != k && HasKey(d, k') ensures Get(r, k') == Get(d, k') {
        var x := IndexOf(d, k');
        assert r[x] == d[x];
        var y := IndexOf(r, k');
      }
    } else {
      assert r[|d|].0 == k;
      forall k' | HasKey(r, k') ensures HasKey(d, k') || k' == k {
        var j :| 0 <= j < |r| && r[j].0 == k';
        if j < |d| { assert d[j].0 == k'; }
      }
      forall k' | HasKey(d, k') ensures HasKey(r, k') {
        var j :| 0 <= j < |d| && d[j].0 == k';
        assert r[j].0 == k';
      }
      assert IndexOf(r, k) == |d| by {
        var x := IndexOf(r, k);
      }
      forall k' | k' != k && HasKey(d, k') ensures Get(r, k') == Get(d, k') {
        var x := IndexOf(d, k');
        assert r[x] == d[x];
        var y := IndexOf(r, k');
      }
    }
  }

  /** `Remove` keeps exactly the entries whose key is not `k`. */
  lemma {:induction false} RemoveMembers<K, V>(d: Dict<K, V>, k: K)
    ensures forall i :: 0 <= i < |Remove(d, k)| ==> Remove(d, k)[i] in d
    ensures forall p :: p in d && p.0 != k ==> p in Remove(d, k)
  {
    if d != [] {
      RemoveMembers(d[1..], k);
      assert d == [d[0]] + d[1..];
    }
  }

  /** Removing `k` keeps the keys distinct. */
  lemma {:induction false} RemoveKeepsDistinct<K, V>(d: Dict<K, V>, k: K)
    requires Distinct(d)
    ensures Distinct(Remove(d, k))
  {
    if d != [] {
      var r := Remove(d, k);
      RemoveKeepsDistinct(d[1..], k);
      RemoveMembers(d[1..], k);
      forall i, j | 0 <= i < j < |r| ensures r[i].0 != r[j].0 {
        if d[0].0 != k {
          if i == 0 {
            assert r[j] == Remove(d[1..], k)[j - 1];
            assert r[j] in d[1..];
            var s :| 0 <= s < |d[1..]| && d[1..][s] == r[j];
            assert d[s + 1] == r[j];
          } else {
            assert r[i] == Remove(d[1..], k)[i - 1];
            assert r[j] == Remove(d[1..], k)[j - 1];
          }
        }
      }
    }
  }

  /** Removing `k` drops exactly that key and leaves every other value as it was. */
  lemma RemoveKeys<K, V>(d: Dict<K, V>, k: K)
    requires Distinct(d)
    ensures !HasKey(Remove(d, k), k)
    ensures forall k' :: HasKey(Remove(d, k), k') <==> HasKey(d, k') && k' != k
    ensures forall k' :: k' != k && HasKey(d, k') ==> Get(Remove(d, k), k') == Get(d, k')
  {
    var r := Remove(d, k);
    RemoveMembers(d, k);
    forall k' | k' != k && HasKey(d, k') ensures HasKey(r, k') {
      var j :| 0 <= j < |d| && d[j].0 == k';
      assert d[j] in d;
      var t :| 0 <= t < |r| && r[t] == d[j];
    }
    forall k' | HasKey(r, k') ensures HasKey(d, k') {
      var j :| 0 <= j < |r| && r[j].0 == k';
      assert r[j] in d;
    }
    forall k' | k' != k && HasKey(d, k') ensures Get(r, k') == Get(d, k') {
      var x := IndexOf(d, k');
      assert d[x] in d;
      var t := IndexOf(r, k');
      assert r[t] in d;
      var s :| 0 <= s < |d| && d[s] == r[t];
      assert s == x;
    }
  }

  /** `del d[k]` on a dictionary. */
  lemma RemoveDistinct<K, V>(d: Dict<K, V>, k: K)
    requires Distinct(d)
    ensures Distinct(Remove(d, k))
    ensures !HasKey(Remove(d, k), k)
    ensures forall k' :: HasKey(Remove(d, k), k') <==> HasKey(d, k') && k' != k
    ensures forall k' :: k' != k && HasKey(d, k') ==> Get(Remove(d, k), k') == Get(d, k')
  {
    RemoveKeepsDistinct(d, k);
    RemoveKeys(d, k);
  }

  lemma {:induction false} UpdateDistinct<K, V>(a: Dict<K, V>, b: Dict<K, V>)
    requires Distinct(a)
    ensures Distinct(Update(a, b))
    ensures forall k :: HasKey(Update(a, b), k) <==> HasKey(a, k) || HasKey(b, k)
    decreases |b|
  {
    if b != [] {
      PutDistinct(a, b[0].0, b[0].1);
      UpdateDistinct(Put(a, b[0].0, b[0].1), b[1..]);
      forall k ensures HasKey(b, k) <==> k == b[0].0 || HasKey(b[1..], k) {
        if HasKey(b, k) && k != b[0].0 {
          var j :| 0 <= j < |b| && b[j].0 == k;
          assert b[1..][j - 1].0 == k;
        }
        if HasKey(b[1..], k) {
          var j :| 0 <= j < |b[1..]| && b[1..][j].0 == k;
          assert b[j + 1].0 == k;
        }
      }
    }
  }

  /** After `a.update(b)`, a key of `b` maps to its value in `b`; any other key keeps `a`'s. */
  lemma {:induction false} UpdateGet<K, V>(a: Dict<K, V>, b: Dict<K, V>, k: K)
    requires Distinct(a) && Distinct(b)
    requires HasKey(a, k) || HasKey(b, k)
    ensures HasKey(Update(a, b), k)
    ensures HasKey(b, k) ==> Get(Update(a, b), k) == Get(b, k)
    ensures !HasKey(b, k) ==> Get(Update(a, b), k) == Get(a, k)
    decreases |b|
  {
    UpdateDistinct(a, b);
    if b != [] {
      var a' := Put(a, b[0].0, b[0].1);
      PutDistinct(a, b[0].0, b[0].1);
      if HasKey(b[1..], k) {
        var j :| 0 <= j < |b[1..]| && b[1..][j].0 == k;
        assert b[j + 1].0 == k;
        UpdateGet(a', b[1..], k);
        assert IndexOf(b, k) == 1 + IndexOf(b[1..], k);
      } else {
        if HasKey(b, k) {
          var j :| 0 <= j < |b| && b[j].0 == k;
          if j > 0 { assert b[1..][j - 1].0 == k; }
          assert IndexOf(b, k) == 0;
        }
        UpdateGet(a', b[1..], k);
      }
    }
  }

  /** A merge that never names `k` leaves `k`'s value alone. */
  lemma {:induction false} UpdateKeeps<K, V>(a: Dict<K, V>, b: Dict<K, V>, k: K)
    requires Distinct(a) && HasKey(a, k) && !HasKey(b, k)
    ensures HasKey(Update(a, b), k) && Get(Update(a, b), k) == Get(a, k)
    decreases |b|
  {
    if b != [] {
      assert b[0].0 != k;
      PutDistinct(a, b[0].0, b[0].1);
      UpdateKeeps(Put(a, b[0].0, b[0].1), b[1..], k);
    }
  }

  /** `a.update(b)` with repeated keys in `b`: the last occurrence of a key wins. */
  lemma {:induction false} UpdateLastWins<K, V>(a: Dict<K, V>, b: Dict<K, V>, j: nat)
    requires Distinct(a) && j < |b|
    requires forall i :: j < i < |b| ==> b[i].0 != b[j].0
    ensures HasKey(Update(a, b), b[j].0) && Get(Update(a, b), b[j].0) == b[j].1
    decreases |b|
  {
    var a' := Put(a, b[0].0, b[0].1);
    PutDistinct(a, b[0].0, b[0].1);
    if j == 0 {
      UpdateKeeps(a', b[1..], b[0].0);
    } else {
      assert b[1..][j - 1] == b[j];
      UpdateLastWins(a', b[1..], j - 1);
    }
  }

  /** A value of `a.update(b)` is `a`'s own or one that `b` gives its key. */
  lemma {:induction false} UpdateValues<K, V>(a: Dict<K, V>, b: Dict<K, V>, k: K)
    requires Distinct(a) && HasKey(Update(a, b), k)
    ensures (exists i :: 0 <= i < |b| && b[i] == (k, Get(Update(a, b), k))) ||
            (HasKey(a, k) && Get(Update(a, b), k) == Get(a, k))
    decreases |b|
  {
    if b != [] {
      var a' := Put(a, b[0].0, b[0].1);
      PutDistinct(a, b[0].0, b[0].1);
      UpdateValues(a', b[1..], k);
      var v := Get(Update(a, b), k);
      if exists i :: 0 <= i < |b[1..]| && b[1..][i] == (k, v) {
        var i :| 0 <= i < |b[1..]| && b[1..][i] == (k, v);
        assert b[i + 1] == (k, v);
      } else if k == b[0].0 {
        assert b[0] == (k, v);
      }
    }
  }

  /** A key of a prefix of a dictionary has the same value in the whole. */
  lemma GetPrefix<K, V>(d: Dict<K, V>, n: nat, k: K)
    requires Distinct(d) && n <= |d| && HasKey(d[..n], k)
    ensures HasKey(d, k) && Get(d, k) == Get(d[..n], k)
  {
    var j := IndexOf(d[..n], k);
    assert d[j] == d[..n][j];
    IndexOfAt(d, j, k);
  }

  /** After `d[k] = v` the keys are the old ones and `k`. */
  lemma PutHasKey<K, V>(d: Dict<K, V>, k: K, v: V, q: K)
    ensures HasKey(Put(d, k, v), q) <==> HasKey(d, q) || q == k
  {
    var r := Put(d, k, v);
    if HasKey(d, q) {
      var i :| 0 <= i < |d| && d[i].0 == q;
      assert r[i].0 == q;
    }
    if q == k {
      assert r[if HasKey(d, k) then IndexOf(d, k) else |d|].0 == k;
    }
    if HasKey(r, q) && q != k {
      var i :| 0 <= i < |r| && r[i].0 == q;
      assert d[i].0 == q;
    }
  }

  /** A key of a concatenation is a key of one of its parts. */
  lemma HasKeyConcat<K, V>(a: Dict<K, V>, b: Dict<K, V>, k: K)
    ensures HasKey(a + b, k) <==> HasKey(a, k) || HasKey(b, k)
  {
    if HasKey(a, k) {
      var i :| 0 <= i < |a| && a[i].0 == k;
      assert (a + b)[i].0 == k;
    }
    if HasKey(b, k) {
      var i :| 0 <= i < |b| && b[i].0 == k;
      assert (a + b)[|a| + i].0 == k;
    }
    if HasKey(a + b, k) {
      var i :| 0 <= i < |a + b| && (a + b)[i].0 == k;
      if i < |a| { assert a[i].0 == k; } else { assert b[i - |a|].0 == k; }
    }
  }

  /** Two dictionaries with no key in common concatenate to a dictionary. */
  lemma ConcatDistinct<K, V>(a: Dict<K, V>, b: Dict<K, V>)
    requires Distinct(a) && Distinct(b)
    requires forall q :: HasKey(a, q) ==> !HasKey(b, q)
    ensures Distinct(a + b)
  {
    forall i, j | 0 <= i < j < |a + b| ensures (a + b)[i].0 != (a + b)[j].0 {
      if i < |a| && j >= |a| {
        assert HasKey(a, a[i].0);
        assert b[j - |a|].0 == (a + b)[j].0;
      }
    }
  }

  /** A key is listed by `Keys` exactly when it is bound. */
  lemma KeysHasKey<K, V>(d: Dict<K, V>)
    ensures forall k :: k in Keys(d) <==> HasKey(d, k)
  {
    forall k ensures k in Keys(d) <==> HasKey(d, k) {
      if k in Keys(d) {
        var i :| 0 <= i < |Keys(d)| && Keys(d)[i] == k;
        assert d[i].0 == k;
      }
      if HasKey(d, k) {
        var i :| 0 <= i < |d| && d[i].0 == k;
        assert Keys(d)[i] == k;
      }
    }
  }

  /** In a dictionary, the entry at position `j` is the one `Get` finds for its key. */
  lemma IndexOfAt<K, V>(d: Dict<K, V>, j: nat, k: K)
    requires Distinct(d) && j < |d| && d[j].0 == k
    ensures HasKey(d, k) && IndexOf(d, k) == j && Get(d, k) == d[j].1
  {
    assert HasKey(d, k);
    var x := IndexOf(d, k);
  }

  /** Looking a key up in a dictionary split before its last entry. */
  lemma LastGet<K, V>(d: Dict<K, V>, k: K)
    requires Distinct(d) && d != []
    ensures Distinct(d[..|d| - 1])
    ensures HasKey(d, k) <==> HasKey(d[..|d| - 1], k) || k == d[|d| - 1].0
    ensures k == d[|d| - 1].0 ==> Get(d, k) == d[|d| - 1].1
    ensures HasKey(d[..|d| - 1], k) ==> k != d[|d| - 1].0 && Get(d, k) == Get(d[..|d| - 1], k)
  {
    var p := d[..|d| - 1];
    if HasKey(d, k) && k != d[|d| - 1].0 {
      var j :| 0 <= j < |d| && d[j].0 == k;
      assert p[j].0 == k;
    }
    if HasKey(p, k) {
      var j :| 0 <= j < |p| && p[j].0 == k;
      assert d[j].0 == k;
      assert IndexOf(d, k) == IndexOf(p, k) by {
        var x := IndexOf(d, k);
        var y := IndexOf(p, k);
        assert d[y].0 == k;
      }
    }
    if k == d[|d| - 1].0 {
      assert HasKey(d, k);
      var x := IndexOf(d, k);
    }
  }

  /** Merging a dictionary none of whose keys are already present appends it: `{**a, **b}` is `a + b`. */
  lemma {:induction false} UpdateDisjoint<K, V>(a: Dict<K, V>, b: Dict<K, V>)
    requires Distinct(b)
    requires forall i :: 0 <= i < |b| ==> !HasKey(a, b[i].0)
    ensures Update(a, b) == a + b
    decreases |b|
  {
    if b != [] {
      var a' := a + [b[0]];
      assert Put(a, b[0].0, b[0].1) == a';
      forall i | 0 <= i < |b[1..]| ensures !HasKey(a', b[1..][i].0) {
        assert b[1..][i] == b[i + 1];
      }
      UpdateDisjoint(a', b[1..]);
      assert a' + b[1..] == a + b;
    }
  }

  /** The keys of `a` come first, in their order, among the keys of `a` updated with `b`. */
  lemma UpdateKeysPrefix<K, V>(a: Dict<K, V>, b: Dict<K, V>)
    ensures |a| <= |Keys(Update(a, b))|
    ensures Keys(Update(a, b))[..|a|] == Keys(a)
  {
    UpdateKeepsPrefix(a, b);
  }

  lemma {:induction false} UpdateKeepsPrefix<K, V>(a: Dict<K, V>, b: Dict<K, V>)
    ensures |a| <= |Update(a, b)|
    ensures forall i :: 0 <= i < |a| ==> Update(a, b)[i].0 == a[i].0
    decreases |b|
  {
    if b != [] {
      UpdateKeepsPrefix(Put(a, b[0].0, b[0].1), b[1..]);
    }
  }

  /** The entries of `t` whose key is also a key of `keep`, in `t`'s order. */
  function Restrict<K(==), V, W>(t: Dict<K, V>, keep: Dict<K, W>): (r: Dict<K, V>)
    ensures |r| <= |t|
    ensures forall i :: 0 <= i < |r| ==> HasKey(keep, r[i].0)
  {
    if t == [] then []
    else
      var rest := Restrict(t[..|t| - 1], keep);
      var last := t[|t| - 1];
      assert t == t[..|t| - 1] + [last];
      if HasKey(keep, last.0) then rest + [last] else rest
  }

  /** `Restrict` keeps exactly the entries of `t` whose key `keep` has. */
  lemma {:induction false} RestrictMembers<K, V, W>(t: Dict<K, V>, keep: Dict<K, W>)
    ensures forall i :: 0 <= i < |Restrict(t, keep)| ==> Restrict(t, keep)[i] in t
    ensures forall i :: 0 <= i < |t| && HasKey(keep, t[i].0) ==> t[i] in Restrict(t, keep)
  {
    if t != [] {
      var init := t[..|t| - 1];
      RestrictMembers(init, keep);
      assert t == init + [t[|t| - 1]];
      assert forall i :: 0 <= i < |init| ==> init[i] == t[i];
    }
  }

  lemma RestrictDistinct<K, V, W>(t: Dict<K, V>, keep: Dict<K, W>)
    requires Distinct(t)
    ensures Distinct(Restrict(t, keep))
  {
    if t != [] {
      var init := t[..|t| - 1];
      var last := t[|t| - 1];
      assert Distinct(init);
      RestrictDistinct(init, keep);
      RestrictMembers(init, keep);
      var rest := Restrict(init, keep);
      forall p | p in rest ensures p.0 != last.0 {
        var j :| 0 <= j < |init| && init[j] == p;
        assert t[j] == p;
      }
    }
  }

  lemma RemoveAbsent<K, V>(t: Dict<K, V>, k: K)
    requires !HasKey(t, k)
    ensures Remove(t, k) == t
  {
    if t != [] {
      assert t[0].0 != k;
      assert !HasKey(t[1..], k);
      RemoveAbsent(t[1..], k);
      assert t == [t[0]] + t[1..];
    }
  }

  lemma RemoveConcat<K, V>(a: Dict<K, V>, b: Dict<K, V>, k: K)
    ensures Remove(a + b, k) == Remove(a, k) + Remove(b, k)
  {
    if a != [] {
      assert (a + b)[1..] == a[1..] + b;
      RemoveConcat(a[1..], b, k);
    } else {
      assert a + b == b;
    }
  }

  lemma GetFirst<K, V>(a: Dict<K, V>, x: (K, V), b: Dict<K, V>)
    requires !HasKey(a, x.0)
    ensures HasKey(a + [x] + b, x.0)
    ensures Get(a + [x] + b, x.0) == x.1
  {
    var c := a + [x] + b;
    assert c[|a|] == x;
    var i := IndexOf(c, x.0);
  }

  /**
   * One step of a loop that walks a snapshot `t` of a dictionary and pops the entries
   * whose key `keep` lacks: with the first `i` entries done, the live dictionary is the
   * kept part of the prefix followed by the untouched rest, so popping `t[i]`'s key
   * yields `t[i]`'s value and removes exactly that entry.
   */
  lemma PopStep<K, V, W>(t: Dict<K, V>, keep: Dict<K, W>, i: nat)
    requires Distinct(t) && i < |t|
    ensures var live := Restrict(t[..i], keep) + t[i..];
      && HasKey(live, t[i].0)
      && Get(live, t[i].0) == t[i].1
      && Remove(live, t[i].0) == Restrict(t[..i], keep) + t[i + 1..]
  {
    var k := t[i].0;
    var pre := Restrict(t[..i], keep);
    var post := t[i + 1..];
    KeyNotBefore(t, keep, i);
    KeyNotAfter(t, i);
    assert pre + t[i..] == pre + [t[i]] + post by {
      assert t[i..] == [t[i]] + post;
    }
    GetFirst(pre, t[i], post);
    assert Remove(pre + [t[i]] + post, k) == pre + post by {
      RemoveConcat(pre + [t[i]], post, k);
      RemoveConcat(pre, [t[i]], k);
      RemoveAbsent(pre, k);
      RemoveAbsent(post, k);
      assert Remove([t[i]], k) == [];
    }
  }

  lemma KeyNotBefore<K, V, W>(t: Dict<K, V>, keep: Dict<K, W>, i: nat)
    requires Distinct(t) && i < |t|
    ensures !HasKey(Restrict(t[..i], keep), t[i].0)
  {
    RestrictMembers(t[..i], keep);
  }

  lemma KeyNotAfter<K, V>(t: Dict<K, V>, i: nat)
    requires Distinct(t) && i < |t|
    ensures !HasKey(t[i + 1..], t[i].0)
  {
  }

  /** The live dictionary of `PopStep` stays a dictionary. */
  lemma PopLiveDistinct<K, V, W>(t: Dict<K, V>, keep: Dict<K, W>, i: nat)
    requires Distinct(t) && i <= |t|
    ensures Distinct(Restrict(t[..i], keep) + t[i..])
  {
    var pre := Restrict(t[..i], keep);
    assert Distinct(t[..i]);
    RestrictDistinct(t[..i], keep);
    RestrictMembers(t[..i], keep);
    var live := pre + t[i..];
    forall a, b | 0 <= a < b < |live| ensures live[a].0 != live[b].0 {
      if b >= |pre| {
        if a < |pre| {
          assert pre[a] in pre;
          var m :| 0 <= m < i && t[..i][m] == pre[a];
          assert live[b] == t[i + b - |pre|];
        } else {
          assert live[a] == t[i + a - |pre|] && live[b] == t[i + b - |pre|];
        }
      }
    }
  }
}
