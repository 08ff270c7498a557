/**
 * Python's insertion-ordered `dict`, as far as the modelled code uses it:
 * item assignment, `dict(zip(names, values))` and `d.update(other)`.
 * A dictionary is its key order together with its key-to-value map.
 */
module Dicts {

  ghost predicate NoDuplicates<T>(s: seq<T>) {
    forall i, j :: 0 <= i < j < |s| ==> s[i] != s[j]
  }

  /** The first occurrence of every element of `s`, in order of first occurrence. */
  function Dedup<T(==,!new)>(s: seq<T>): (r: seq<T>)
    ensures |r| <= |s|
  {
    if s == [] then []
    else
      var p := Dedup(s[..|s| - 1]);
      if s[|s| - 1] in p then p else p + [s[|s| - 1]]
  }

  /** Deduplicating keeps every element and adds none. */
  lemma {:induction false} DedupMembers<T(!new)>(s: seq<T>)
    ensures forall x :: x in Dedup(s) <==> x in s
  {
    if s != [] {
      var init := s[..|s| - 1];
      DedupMembers(init);
      assert s == init + [s[|s| - 1]];
    }
  }

  /** Deduplicating leaves no repetitions. */
  lemma {:induction false} DedupDistinct<T(!new)>(s: seq<T>)
    ensures NoDuplicates(Dedup(s))
  {
    if s != [] {
      DedupDistinct(s[..|s| - 1]);
    }
  }

  /** A sequence without repetitions is its own deduplication. */
  lemma {:induction false} DedupOfDistinct<T(!new)>(s: seq<T>)
    requires NoDuplicates(s)
    ensures Dedup(s) == s
  {
    if s != [] {
      var init := s[..|s| - 1];
      assert NoDuplicates(init);
      DedupOfDistinct(init);
      assert s[|s| - 1] !in init;
      assert init + [s[|s| - 1]] == s;
    }
  }

  /** Deduplicating a concatenation: the second part contributes only what is new. */
  lemma {:induction false} DedupAppend<T(!new)>(s: seq<T>, x: T)
    ensures Dedup(s + [x]) == if x in s then Dedup(s) else Dedup(s) + [x]
  {
    DedupMembers(s);
    assert (s + [x])[..|s + [x]| - 1] == s;
  }

  /**
   * The order of first occurrences: an earlier element of Dedup(s) occurs
   * earlier in s. Python leaves the order of a `set` undefined; this is the
   * order the model itself chooses for `list(set(...))`, not one the
   * workflow relies on.
   */
  lemma {:induction false} DedupOrder<T(!new)>(s: seq<T>, i: nat, j: nat)
    requires i < j < |Dedup(s)|
    ensures exists a :: 0 <= a < |s| && s[a] == Dedup(s)[i] && Dedup(s)[j] !in s[..a + 1]
  {
    var init := s[..|s| - 1];
    var p := Dedup(init);
    var last := s[|s| - 1];
    DedupMembers(init);
    if j < |p| {
      DedupOrder(init, i, j);
      var a :| 0 <= a < |init| && init[a] == p[i] && p[j] !in init[..a + 1];
      assert s[..a + 1] == init[..a + 1];
      assert Dedup(s)[i] == p[i] && Dedup(s)[j] == p[j];
    } else {
      // Dedup(s)[j] is the new last element, absent from all of init
      assert Dedup(s) == p + [last] && last !in p;
      assert Dedup(s)[i] == p[i] && p[i] in init;
      var a :| 0 <= a < |init| && init[a] == p[i];
      assert s[..a + 1] == init[..a + 1];
      assert last !in init;
    }
  }

  datatype Dict<K(!new), V> = Dict(keys: seq<K>, entries: map<K, V>)
  {
    /**
     * The key order lists exactly the keys of the map. That it lists each
     * only once is proved of the dicts the model builds (`FromPairsDistinct`).
     */
    ghost predicate Valid() {
      forall k :: k in entries <==> k in keys
    }
  }

  /** `{}` */
  function Empty<K(!new), V>(): (d: Dict<K, V>)
    ensures d.Valid() && d.keys == [] && d.entries == map[]
  {
    Dict([], map[])
  }

  /** `d[k] = v`: a new key goes to the end, an existing key keeps its place. */
  function Set<K(!new), V>(d: Dict<K, V>, k: K, v: V): (r: Dict<K, V>)
    requires d.Valid()
    ensures r.Valid()
    ensures r.entries == d.entries[k := v]
    ensures r.keys == if k in d.entries then d.keys else d.keys + [k]
  {
    if k in d.entries then Dict(d.keys, d.entries[k := v])
    else Dict(d.keys + [k], d.entries[k := v])
  }

  /** The first components of a sequence of pairs (the `names` column of `zip(names, values)`). */
  function Firsts<K(!new), V>(ps: seq<(K, V)>): (r: seq<K>)
    ensures |r| == |ps| && forall i :: 0 <= i < |ps| ==> r[i] == ps[i].0
  {
    if ps == [] then [] else Firsts(ps[..|ps| - 1]) + [ps[|ps| - 1].0]
  }

  /** `dict(pairs)`: the pairs are assigned one by one, from left to right. */
  function FromPairs<K(!new), V>(ps: seq<(K, V)>): (d: Dict<K, V>)
    ensures d.Valid()
  {
    if ps == [] then Empty()
    else Set(FromPairs(ps[..|ps| - 1]), ps[|ps| - 1].0, ps[|ps| - 1].1)
  }

  /** The keys of `dict(pairs)` are the distinct first components, in order of first occurrence. */
  lemma {:induction false} FromPairsKeys<K(!new), V>(ps: seq<(K, V)>)
    ensures FromPairs(ps).keys == Dedup(Firsts(ps))
  {
    if ps != [] {
      var init := ps[..|ps| - 1];
      FromPairsKeys(init);
      assert Firsts(ps) == Firsts(init) + [ps[|ps| - 1].0];
      DedupAppend(Firsts(init), ps[|ps| - 1].0);
    }
  }

  /** `dict(pairs)` lists each key once. */
  lemma {:induction false} FromPairsDistinct<K(!new), V>(ps: seq<(K, V)>)
    ensures NoDuplicates(FromPairs(ps).keys)
  {
    FromPairsKeys(ps);
    DedupDistinct(Firsts(ps));
  }

  /** A key is in `dict(pairs)` exactly when some pair carries it. */
  lemma {:induction false} FromPairsDomain<K(!new), V>(ps: seq<(K, V)>, k: K)
    ensures k in FromPairs(ps).entries <==> k in Firsts(ps)
  {
    FromPairsKeys(ps);
    DedupMembers(Firsts(ps));
  }

  /** In `dict(pairs)` the last pair with a given key decides that key's value. */
  lemma {:induction false} FromPairsLastWins<K(!new), V>(ps: seq<(K, V)>, i: nat)
    requires i < |ps|
    requires forall j :: i < j < |ps| ==> ps[j].0 != ps[i].0
    ensures ps[i].0 in FromPairs(ps).entries && FromPairs(ps).entries[ps[i].0] == ps[i].1
  {
    if i < |ps| - 1 {
      FromPairsLastWins(ps[..|ps| - 1], i);
    }
  }

  /** One more pair assigns its key. */
  lemma {:induction false} FromPairsSnoc<K(!new), V>(s: seq<(K, V)>, p: (K, V))
    ensures FromPairs(s + [p]).entries == FromPairs(s).entries[p.0 := p.1]
  {
    assert (s + [p])[..|s + [p]| - 1] == s;
  }

  /** `dict(xs + ys)` maps keys like `dict(xs)` overlaid with `dict(ys)`. */
  lemma {:induction false} FromPairsConcat<K(!new), V>(xs: seq<(K, V)>, ys: seq<(K, V)>)
    ensures FromPairs(xs + ys).entries == FromPairs(xs).entries + FromPairs(ys).entries
  {
    if ys == [] {
      assert xs + ys == xs;
    } else {
      var init, last := ys[..|ys| - 1], ys[|ys| - 1];
      assert ys == init + [last];
      assert xs + ys == (xs + init) + [last];
      FromPairsConcat(xs, init);
      FromPairsSnoc(xs + init, last);
      FromPairsSnoc(init, last);
      UnionUpdate(FromPairs(xs).entries, FromPairs(init).entries, last.0, last.1);
    }
  }

  /** Assigning a key after a union is assigning it in the right operand. */
  lemma {:induction false} UnionUpdate<K, V>(a: map<K, V>, b: map<K, V>, k: K, v: V)
    ensures (a + b)[k := v] == a + b[k := v]
  {
  }

  /** The elements of `s` that are not keys of `m`, in order. */
  function Unseen<K(!new), V>(s: seq<K>, m: map<K, V>): (r: seq<K>)
    ensures |r| <= |s|
  {
    if s == [] then []
    else if s[|s| - 1] in m then Unseen(s[..|s| - 1], m)
    else Unseen(s[..|s| - 1], m) + [s[|s| - 1]]
  }

  /** `Unseen` keeps exactly the elements that are not keys. */
  lemma {:induction false} UnseenMembers<K(!new), V>(s: seq<K>, m: map<K, V>)
    ensures forall x :: x in Unseen(s, m) <==> x in s && x !in m
  {
    if s != [] {
      var init := s[..|s| - 1];
      UnseenMembers(init, m);
      assert s == init + [s[|s| - 1]];
    }
  }

  /** `d[k] = e[k]` for every `k` of `ks`, in order. */
  function UpdateWith<K(!new), V>(d: Dict<K, V>, e: Dict<K, V>, ks: seq<K>): (r: Dict<K, V>)
    requires d.Valid() && e.Valid()
    requires forall k :: k in ks ==> k in e.entries
    ensures r.Valid()
  {
    if ks == [] then d
    else
      var last := ks[|ks| - 1];
      Set(UpdateWith(d, e, ks[..|ks| - 1]), last, e.entries[last])
  }

  /**
   * After assigning the keys `ks` (distinct, as a dict's keys are) the keys of
   * `d` keep their place, the new ones follow in the order of `ks`, and the
   * values of `e` win.
   */
  lemma {:induction false} UpdateWithSpec<K(!new), V>(d: Dict<K, V>, e: Dict<K, V>, ks: seq<K>)
    requires d.Valid() && e.Valid()
    requires forall k :: k in ks ==> k in e.entries
    requires NoDuplicates(ks)
    ensures forall k :: k in UpdateWith(d, e, ks).entries <==> k in d.entries || k in ks
    ensures forall k :: k in ks ==> UpdateWith(d, e, ks).entries[k] == e.entries[k]
    ensures forall k :: k in d.entries && k !in ks ==> UpdateWith(d, e, ks).entries[k] == d.entries[k]
    ensures UpdateWith(d, e, ks).keys == d.keys + Unseen(ks, d.entries)
  {
    if ks != [] {
      var init := ks[..|ks| - 1];
      var last := ks[|ks| - 1];
      assert ks == init + [last];
      assert NoDuplicates(init);
      assert last !in init;
      UpdateWithSpec(d, e, init);
    }
  }

  /** `d.update(e)`: `d[k] = e[k]` for every key of `e`, in the order of `e`. */
  function Update<K(!new), V>(d: Dict<K, V>, e: Dict<K, V>): (r: Dict<K, V>)
    requires d.Valid() && e.Valid()
    ensures r.Valid()
  {
    UpdateWith(d, e, e.keys)
  }

  /** After `d.update(e)` the values of `e` win, and keys new to `d` follow its keys in the order of `e`. */
  lemma {:induction false} UpdateSpec<K(!new), V>(d: Dict<K, V>, e: Dict<K, V>)
    requires d.Valid() && e.Valid() && NoDuplicates(e.keys)
    ensures Update(d, e).entries == d.entries + e.entries
    ensures Update(d, e).keys == d.keys + Unseen(e.keys, d.entries)
  {
    var r := UpdateWith(d, e, e.keys);
    UpdateWithSpec(d, e, e.keys);
    assert r.entries == d.entries + e.entries by {
      assert r.entries.Keys == (d.entries + e.entries).Keys;
      forall k | k in r.entries ensures r.entries[k] == (d.entries + e.entries)[k] {
        if k in e.keys {} else {}
      }
    }
  }

  /** Updating an empty dict gives the other dict's entries. */
  lemma {:induction false} UpdateEmpty<K(!new), V>(e: Dict<K, V>)
    requires e.Valid() && NoDuplicates(e.keys)
    ensures Update(Empty(), e).entries == e.entries
  {
    var empty: Dict<K, V> := Empty();
    UpdateSpec(empty, e);
    assert empty.entries + e.entries == e.entries;
  }

  /** Updating an empty dict with `dict(xs)` and then with `dict(ys)` maps keys like `dict(xs + ys)`. */
  lemma {:induction false} UpdateEmptyTwice<K(!new), V>(xs: seq<(K, V)>, ys: seq<(K, V)>)
    ensures Update(Update(Empty(), FromPairs(xs)), FromPairs(ys)).entries == FromPairs(xs + ys).entries
  {
    FromPairsDistinct(xs);
    FromPairsDistinct(ys);
    UpdateEmpty(FromPairs(xs));
    UpdateSpec(Update(Empty(), FromPairs(xs)), FromPairs(ys));
    FromPairsConcat(xs, ys);
  }
}
