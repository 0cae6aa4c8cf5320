/** Insertion-ordered dictionaries (Python's `dict` and `OrderedDict`), and what a
    receiver that keeps the last value of every key makes of a sequence of entries. */
module OrderedDict {

  datatype Option<+T> = None | Some(value: T)

  datatype Item<K, V> = Item(key: K, value: V)

  // A dictionary: its entries in iteration order, no key twice.
  ghost predicate Distinct<K, V>(d: seq<Item<K, V>>) {
    forall i, j :: 0 <= i < j < |d| ==> d[i].key != d[j].key
  }

  predicate Has<K(==), V>(d: seq<Item<K, V>>, k: K) {
    exists i :: 0 <= i < |d| && d[i].key == k
  }

  function Find<K(==), V>(d: seq<Item<K, V>>, k: K): (i: nat)
    requires Has(d, k)
    ensures i < |d| && d[i].key == k
    ensures forall j :: 0 <= j < i ==> d[j].key != k
  {
    if d[0].key == k then 0 else 1 + Find(d[1..], k)
  }

  function Get<K(==), V>(d: seq<Item<K, V>>, k: K, default: V): V {
    if Has(d, k) then d[Find(d, k)].value else default
  }

  // d[k] = v: an existing key keeps its place, a new one goes to the end.
  function Set<K(==), V>(d: seq<Item<K, V>>, k: K, v: V): seq<Item<K, V>> {
    if Has(d, k) then d[Find(d, k) := Item(k, v)] else d + [Item(k, v)]
  }

  // d.pop(k, None)
  function Without<K(==), V>(d: seq<Item<K, V>>, k: K): seq<Item<K, V>> {
    if d == [] then []
    else
      var rest := Without(d[..|d| - 1], k);
      if d[|d| - 1].key == k then rest else rest + [d[|d| - 1]]
  }

  /** The last value of every key once `d` has been received after `m`. */
  function Receive<K, V>(m: map<K, V>, d: seq<Item<K, V>>): map<K, V> {
    if d == [] then m
    else Receive(m, d[..|d| - 1])[d[|d| - 1].key := d[|d| - 1].value]
  }

  // ------------------------------------------------------------ Receive

  lemma {:induction false} ReceiveConcat<K, V>(m: map<K, V>, a: seq<Item<K, V>>, b: seq<Item<K, V>>)
    ensures Receive(m, a + b) == Receive(Receive(m, a), b)
  {
    if b == [] {
      assert a + b == a;
    } else {
      assert (a + b)[..|a + b| - 1] == a + b[..|b| - 1];
      ReceiveConcat(m, a, b[..|b| - 1]);
    }
  }

  lemma ReceiveOne<K, V>(m: map<K, V>, d: seq<Item<K, V>>, k: K, v: V)
    ensures Receive(m, d + [Item(k, v)]) == Receive(m, d)[k := v]
  {
    assert (d + [Item(k, v)])[..|d|] == d;
  }

  lemma HasLast<K, V>(d: seq<Item<K, V>>, k: K)
    requires d != []
    ensures Has(d, k) <==> Has(d[..|d| - 1], k) || d[|d| - 1].key == k
  {
    var s := d[..|d| - 1];
    if Has(s, k) { assert d[Find(s, k)].key == k; }
    if Has(d, k) { assert Find(d, k) < |s| ==> s[Find(d, k)].key == k; }
  }

  lemma {:induction false} ReceiveKeys<K, V>(m: map<K, V>, d: seq<Item<K, V>>, k: K)
    ensures k in Receive(m, d) <==> k in m || Has(d, k)
    ensures !Has(d, k) && k in m ==> Receive(m, d)[k] == m[k]
  {
    if d != [] {
      var s := d[..|d| - 1];
      ReceiveKeys(m, s, k);
      HasLast(d, k);
    }
  }

  lemma {:induction false} ReceiveAt<K, V>(m: map<K, V>, d: seq<Item<K, V>>, i: nat)
    requires Distinct(d) && i < |d|
    ensures d[i].key in Receive(m, d) && Receive(m, d)[d[i].key] == d[i].value
  {
    var s := d[..|d| - 1];
    if i < |s| {
      ReceiveAt(m, s, i);
      assert s[i] == d[i];
    }
  }

  // A dictionary holds the value of a key it has, the base the rest.
  lemma ReceiveLookup<K, V>(m: map<K, V>, d: seq<Item<K, V>>, k: K, v: V)
    requires Distinct(d)
    requires k in Receive(m, d)
    ensures Has(d, k) ==> Receive(m, d)[k] == Get(d, k, v)
    ensures !Has(d, k) ==> k in m && Receive(m, d)[k] == m[k]
  {
    ReceiveKeys(m, d, k);
    if Has(d, k) { ReceiveAt(m, d, Find(d, k)); }
  }

  // ------------------------------------------------------------ Without

  lemma {:induction false} WithoutMember<K, V>(d: seq<Item<K, V>>, k: K, x: Item<K, V>)
    ensures x in Without(d, k) <==> x in d && x.key != k
  {
    if d != [] {
      WithoutMember(d[..|d| - 1], k, x);
      assert d == d[..|d| - 1] + [d[|d| - 1]];
    }
  }

  lemma WithoutHas<K, V>(d: seq<Item<K, V>>, k: K, j: K)
    ensures Has(Without(d, k), j) <==> Has(d, j) && j != k
  {
    var w := Without(d, k);
    if Has(w, j) {
      WithoutMember(d, k, w[Find(w, j)]);
      HasElement(d, w[Find(w, j)]);
    }
    if Has(d, j) && j != k {
      WithoutMember(d, k, d[Find(d, j)]);
      HasElement(w, d[Find(d, j)]);
    }
  }

  lemma HasElement<K, V>(d: seq<Item<K, V>>, x: Item<K, V>)
    requires x in d
    ensures Has(d, x.key)
  {
    var i :| 0 <= i < |d| && d[i] == x;
    assert d[i].key == x.key;
  }

  lemma DistinctLast<K, V>(d: seq<Item<K, V>>)
    requires d != []
    ensures Distinct(d) <==> Distinct(d[..|d| - 1]) && !Has(d[..|d| - 1], d[|d| - 1].key)
  {
    var s, k := d[..|d| - 1], d[|d| - 1].key;
    assert forall i :: 0 <= i < |s| ==> s[i] == d[i];
    if Distinct(s) && !Has(s, k) {
      forall i, j | 0 <= i < j < |d| ensures d[i].key != d[j].key {
        assert s[i].key != k;
      }
    }
  }

  lemma {:induction false} WithoutDistinct<K, V>(d: seq<Item<K, V>>, k: K)
    requires Distinct(d)
    ensures Distinct(Without(d, k))
    ensures !Has(d, k) ==> Without(d, k) == d
  {
    if d != [] {
      var s, last := d[..|d| - 1], d[|d| - 1];
      DistinctLast(d);
      WithoutDistinct(s, k);
      WithoutHas(s, k, last.key);
      if Has(s, k) { assert d[Find(s, k)].key == k; }
      var w := Without(s, k) + [last];
      assert w[..|w| - 1] == Without(s, k);
      DistinctLast(w);
      assert last.key == k ==> Has(d, k);
    }
  }

  lemma {:induction false} WithoutReceive<K, V>(m: map<K, V>, d: seq<Item<K, V>>, k: K, v: V)
    ensures Receive(m, Without(d, k))[k := v] == Receive(m, d)[k := v]
    ensures Receive(m[k := v], Without(d, k)) == Receive(m, Without(d, k))[k := v]
  {
    if d != [] {
      var s, last := d[..|d| - 1], d[|d| - 1];
      WithoutReceive(m, s, k, v);
      if last.key != k {
        var r := Without(s, k);
        assert (r + [last])[..|r|] == r;
        assert Receive(m, d)[k := v] == Receive(m, s)[k := v][last.key := last.value];
        assert Receive(m, r + [last])[k := v] == Receive(m, r)[k := v][last.key := last.value];
      }
    }
  }

  // ------------------------------------------------------------ Set

  lemma SetDistinct<K, V>(d: seq<Item<K, V>>, k: K, v: V)
    requires Distinct(d)
    ensures Distinct(Set(d, k, v))
  {
    forall i | 0 <= i < |d| && !Has(d, k) ensures d[i].key != k {}
  }

  lemma SetHas<K, V>(d: seq<Item<K, V>>, k: K, v: V, j: K)
    ensures Has(Set(d, k, v), j) <==> Has(d, j) || j == k
  {
    var s := Set(d, k, v);
    if Has(d, j) { assert s[Find(d, j)].key == j; }
    if j == k {
      if Has(d, k) { assert s[Find(d, k)].key == k; } else { assert s[|d|].key == k; }
    }
    if Has(s, j) && j != k {
      var i := Find(s, j);
      assert i < |d| && d[i].key == j;
    }
  }

  lemma SetGet<K, V>(d: seq<Item<K, V>>, k: K, v: V, j: K, default: V)
    requires Distinct(d)
    ensures Get(Set(d, k, v), j, default) == if j == k then v else Get(d, j, default)
  {
    var s := Set(d, k, v);
    SetHas(d, k, v, j);
    SetDistinct(d, k, v);
    if j == k {
      if Has(d, k) { assert s[Find(d, k)].key == k; } else { assert s[|d|].key == k; }
    } else if Has(d, j) {
      assert s[Find(d, j)] == d[Find(d, j)];
    }
  }

  lemma {:induction false} SetReceive<K, V>(m: map<K, V>, d: seq<Item<K, V>>, k: K, v: V)
    requires Distinct(d)
    ensures Receive(m, Set(d, k, v)) == Receive(m, d)[k := v]
  {
    if !Has(d, k) {
      ReceiveOne(m, d, k, v);
    } else {
      var i, n := Find(d, k), |d| - 1;
      var s := d[..n];
      var d' := d[i := Item(k, v)];
      if i == n {
        assert d'[..n] == s;
      } else {
        assert s[i].key == k;
        assert Has(s, k);
        assert Find(s, k) == i;
        assert d'[..n] == s[i := Item(k, v)];
        SetReceive(m, s, k, v);
        assert d'[n] == d[n] && d[n].key != k;
      }
    }
  }
}
