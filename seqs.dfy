/**
 * Sequence facts shared by the CSV tools: selecting the lines that belong to
 * one key, and the fact that the selections for all keys partition the input.
 */
module Seqs {
  import opened Wrappers


  predicate Distinct<T(==)>(xs: seq<T>) {
    forall i, j :: 0 <= i < j < |xs| ==> xs[i] != xs[j]
  }

  /** The elements of `xs` whose key is `k`, in their original order. */
  function Filter<T, K(==)>(xs: seq<T>, key: T -> K, k: K): (r: seq<T>)
    ensures |r| <= |xs|
    ensures forall i :: 0 <= i < |r| ==> r[i] in xs && key(r[i]) == k
  {
    if xs == [] then []
    else Filter(xs[..|xs| - 1], key, k) + (if key(xs[|xs| - 1]) == k then [xs[|xs| - 1]] else [])
  }

  lemma FilterSnoc<T, K>(xs: seq<T>, x: T, key: T -> K, k: K)
    ensures Filter(xs + [x], key, k) == Filter(xs, key, k) + (if key(x) == k then [x] else [])
  {
    assert (xs + [x])[..|xs|] == xs;
  }

  /** An element whose key is `k` is kept by the selection for `k`. */
  lemma {:induction false} FilterKeeps<T, K>(xs: seq<T>, key: T -> K, i: int)
    requires 0 <= i < |xs|
    ensures xs[i] in Filter(xs, key, key(xs[i]))
  {
    if i < |xs| - 1 {
      FilterKeeps(xs[..|xs| - 1], key, i);
    }
  }

  /** The total size of the selections for the keys `ks`. */
  function FilteredTotal<T, K(==)>(xs: seq<T>, key: T -> K, ks: seq<K>): nat {
    if ks == [] then 0 else |Filter(xs, key, ks[0])| + FilteredTotal(xs, key, ks[1..])
  }

  lemma {:induction false} FilteredTotalSnoc<T, K>(xs: seq<T>, x: T, key: T -> K, ks: seq<K>)
    requires Distinct(ks)
    ensures FilteredTotal(xs + [x], key, ks)
         == FilteredTotal(xs, key, ks) + (if key(x) in ks then 1 else 0)
  {
    if ks != [] {
      FilterSnoc(xs, x, key, ks[0]);
      FilteredTotalSnoc(xs, x, key, ks[1..]);
      assert key(x) in ks <==> key(x) == ks[0] || key(x) in ks[1..];
      if key(x) == ks[0] {
        assert key(x) !in ks[1..] by {
          forall j | 0 <= j < |ks| - 1 ensures ks[1..][j] != ks[0] {
            assert ks[1 + j] != ks[0];
          }
        }
      }
    }
  }

  /**
   * The selections for a duplicate-free list of keys that covers every
   * element partition the input: their sizes add up to its length.
   */
  lemma {:induction false} Partition<T, K>(xs: seq<T>, key: T -> K, ks: seq<K>)
    requires Distinct(ks)
    requires forall i :: 0 <= i < |xs| ==> key(xs[i]) in ks
    ensures FilteredTotal(xs, key, ks) == |xs|
  {
    if xs == [] {
      ZeroTotal(key, ks);
    } else {
      var ys := xs[..|xs| - 1];
      var x := xs[|xs| - 1];
      assert xs == ys + [x];
      assert forall i :: 0 <= i < |ys| ==> ys[i] == xs[i];
      Partition(ys, key, ks);
      FilteredTotalSnoc(ys, x, key, ks);
    }
  }

  lemma {:induction false} ZeroTotal<T, K>(key: T -> K, ks: seq<K>)
    ensures FilteredTotal([], key, ks) == 0
  {
    if ks != [] {
      ZeroTotal(key, ks[1..]);
    }
  }

  /** The distinct elements of `xs` in order of first occurrence. */
  function Dedup<T(==)>(xs: seq<T>): (r: seq<T>)
    ensures Distinct(r)
    ensures forall i :: 0 <= i < |r| ==> r[i] in xs
    ensures forall i :: 0 <= i < |xs| ==> xs[i] in r
  {
    if xs == [] then []
    else
      var d := Dedup(xs[..|xs| - 1]);
      var x := xs[|xs| - 1];
      assert forall i :: 0 <= i < |xs| - 1 ==> xs[i] == xs[..|xs| - 1][i];
      if x in d then d else d + [x]
  }

  /** The keys `key` gives the elements of `xs`, where it gives one, in order. */
  function Present<T, K>(xs: seq<T>, key: T -> Option<K>): seq<K> {
    if xs == [] then []
    else
      var x := xs[|xs| - 1];
      Present(xs[..|xs| - 1], key) + (if key(x).Some? then [key(x).value] else [])
  }

  lemma {:induction false} PresentMembers<T, K>(xs: seq<T>, key: T -> Option<K>, k: K)
    ensures k in Present(xs, key) <==> exists i :: 0 <= i < |xs| && key(xs[i]) == Some(k)
  {
    if xs != [] {
      var init := xs[..|xs| - 1];
      PresentMembers(init, key, k);
      assert forall i :: 0 <= i < |init| ==> init[i] == xs[i];
    }
  }

  /** One more element adds its key to the distinct keys, unless it has none or it is there already. */
  lemma DedupPresentSnoc<T, K>(xs: seq<T>, x: T, key: T -> Option<K>)
    ensures var d := Dedup(Present(xs, key));
      Dedup(Present(xs + [x], key))
        == if key(x).None? || key(x).value in d then d else d + [key(x).value]
  {
    assert (xs + [x])[..|xs|] == xs;
    if key(x).Some? {
      var p := Present(xs, key) + [key(x).value];
      assert Present(xs + [x], key) == p;
      assert p[..|p| - 1] == Present(xs, key);
    } else {
      assert Present(xs + [x], key) == Present(xs, key);
    }
  }

  /**
   * `buckets` files every element of `xs` that has a key under that key, in
   * order, and has one entry per distinct key.
   */
  ghost predicate Buckets<T, K(!new)>(buckets: map<K, seq<T>>, xs: seq<T>, key: T -> Option<K>) {
    && (forall k :: k in buckets <==> k in Dedup(Present(xs, key)))
    && (forall k :: k in buckets ==> buckets[k] == Filter(xs, key, Some(k)))
  }

  /** A key no element has selects nothing. */
  lemma FilterAbsent<T, K>(xs: seq<T>, key: T -> Option<K>, k: K)
    requires k !in Dedup(Present(xs, key))
    ensures Filter(xs, key, Some(k)) == []
  {
    PresentMembers(xs, key, k);
    var f := Filter(xs, key, Some(k));
    if f != [] {
      var i :| 0 <= i < |xs| && xs[i] == f[0];
      assert false;
    }
  }

  /** An element without a key leaves `Buckets` as it is. */
  lemma BucketsSkip<T, K(!new)>(buckets: map<K, seq<T>>, xs: seq<T>, x: T, key: T -> Option<K>)
    requires Buckets(buckets, xs, key) && key(x).None?
    ensures Buckets(buckets, xs + [x], key)
  {
    DedupPresentSnoc(xs, x, key);
    forall k | k in buckets ensures buckets[k] == Filter(xs + [x], key, Some(k)) {
      FilterSnoc(xs, x, key, Some(k));
    }
  }

  /** Appending an element to the bucket of its key (opened if new) keeps `Buckets`. */
  lemma BucketsAppend<T, K(!new)>(buckets: map<K, seq<T>>, xs: seq<T>, x: T, key: T -> Option<K>)
    requires Buckets(buckets, xs, key) && key(x).Some?
    ensures var k := key(x).value;
      Buckets(buckets[k := (if k in buckets then buckets[k] else []) + [x]], xs + [x], key)
  {
    DedupPresentSnoc(xs, x, key);
    var k0 := key(x).value;
    var old0 := if k0 in buckets then buckets[k0] else [];
    if k0 !in buckets {
      FilterAbsent(xs, key, k0);
    }
    assert old0 == Filter(xs, key, Some(k0));
    var b := buckets[k0 := old0 + [x]];
    assert forall k :: k in b <==> k in Dedup(Present(xs + [x], key));
    forall k | k in b ensures b[k] == Filter(xs + [x], key, Some(k)) {
      FilterSnoc(xs, x, key, Some(k));
    }
  }

  /** `Dedup` keeps exactly the elements it is given. */
  lemma DedupMembers<T>(xs: seq<T>, x: T)
    ensures x in Dedup(xs) <==> x in xs
  {
    var d := Dedup(xs);
    if x in d {
      var i :| 0 <= i < |d| && d[i] == x;
    }
    if x in xs {
      var i :| 0 <= i < |xs| && xs[i] == x;
    }
  }

  /**
   * `counts` maps each key of an element of `xs` to the number of elements
   * that have it, and has no other entry.
   */
  ghost predicate Tally<T, K(!new)>(counts: map<K, int>, xs: seq<T>, key: T -> Option<K>) {
    && (forall k :: k in counts <==> k in Present(xs, key))
    && (forall k :: k in counts ==> counts[k] == |Filter(xs, key, Some(k))|)
  }

  /** Counting one more element under its key (starting at 1 if new) keeps `Tally`. */
  lemma TallyAppend<T, K(!new)>(counts: map<K, int>, xs: seq<T>, x: T, key: T -> Option<K>)
    requires Tally(counts, xs, key) && key(x).Some?
    ensures var k := key(x).value;
      Tally(counts[k := if k in counts then counts[k] + 1 else 1], xs + [x], key)
  {
    var k0 := key(x).value;
    assert (xs + [x])[..|xs|] == xs;
    assert Present(xs + [x], key) == Present(xs, key) + [k0];
    var old0 := if k0 in counts then counts[k0] else 0;
    if k0 !in counts {
      DedupMembers(Present(xs, key), k0);
      FilterAbsent(xs, key, k0);
    }
    var c := counts[k0 := old0 + 1];
    forall k | k in c ensures c[k] == |Filter(xs + [x], key, Some(k))| {
      FilterSnoc(xs, x, key, Some(k));
      if k != k0 {
        assert Filter(xs + [x], key, Some(k)) == Filter(xs, key, Some(k));
      }
    }
  }

  /**
   * The element after `xs[..i]`, counted under its key, keeps `Tally` and the
   * list of distinct keys in first-seen order.
   */
  lemma TallyStep<T, K(!new)>(counts: map<K, int>, ks: seq<K>, xs: seq<T>, i: nat, key: T -> Option<K>)
    requires i < |xs| && key(xs[i]).Some?
    requires Tally(counts, xs[..i], key) && ks == Dedup(Present(xs[..i], key))
    ensures var k := key(xs[i]).value;
      && Tally(counts[k := if k in counts then counts[k] + 1 else 1], xs[..i + 1], key)
      && Dedup(Present(xs[..i + 1], key)) == if k in counts then ks else ks + [k]
  {
    assert xs[..i + 1] == xs[..i] + [xs[i]];
    TallyAppend(counts, xs[..i], xs[i], key);
    DedupPresentSnoc(xs[..i], xs[i], key);
    DedupMembers(Present(xs[..i], key), key(xs[i]).value);
  }

  /** `Some` of each key. */
  function Somes<K>(ks: seq<K>): (r: seq<Option<K>>)
    ensures |r| == |ks| && forall i :: 0 <= i < |ks| ==> r[i] == Some(ks[i])
  {
    seq(|ks|, i requires 0 <= i < |ks| => Some(ks[i]))
  }

  /**
   * The elements without a key and the selections for each distinct key
   * together account for every element exactly once.
   */
  lemma PartitionByKey<T, K>(xs: seq<T>, key: T -> Option<K>)
    ensures |Filter(xs, key, None)| + FilteredTotal(xs, key, Somes(Dedup(Present(xs, key)))) == |xs|
  {
    var ks := Dedup(Present(xs, key));
    var all := [None] + Somes(ks);
    assert all[1..] == Somes(ks);
    assert Distinct(all) by {
      forall i, j | 0 <= i < j < |all| ensures all[i] != all[j] {
        if i > 0 {
          assert all[i].value == ks[i - 1] && all[j].value == ks[j - 1];
        }
      }
    }
    forall i | 0 <= i < |xs| ensures key(xs[i]) in all {
      var k := key(xs[i]);
      if k.Some? {
        PresentMembers(xs, key, k.value);
        var j :| 0 <= j < |ks| && ks[j] == k.value;
        assert all[j + 1] == k;
      }
    }
    Partition(xs, key, all);
  }

  /** When every element has a key, the selections for the distinct keys account for every element. */
  lemma PartitionKeyed<T, K>(xs: seq<T>, key: T -> Option<K>)
    requires forall i :: 0 <= i < |xs| ==> key(xs[i]).Some?
    ensures FilteredTotal(xs, key, Somes(Dedup(Present(xs, key)))) == |xs|
  {
    PartitionByKey(xs, key);
    var none := Filter(xs, key, None);
    if none != [] {
      var i :| 0 <= i < |xs| && xs[i] == none[0];
      assert false;
    }
  }
}
