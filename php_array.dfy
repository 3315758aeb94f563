/**
 * PHP's ordered associative arrays with string keys, and `array_merge` on them.
 * An array is a sequence of (key, value) entries in insertion order; a key
 * occurs at most once.
 */
module PhpArray {

  import opened Wrappers

  type Entry = (string, string)

  /** No key occurs twice: what every PHP array guarantees. */
  predicate DistinctKeys(a: seq<Entry>) {
    forall i, j :: 0 <= i < j < |a| ==> a[i].0 != a[j].0
  }

  /** A PHP array with string keys. */
  type Assoc = a: seq<Entry> | DistinctKeys(a) witness []

  /** The keys of `a`, in order. */
  function Keys(a: seq<Entry>): (ks: seq<string>)
    ensures |ks| == |a|
    ensures forall i :: 0 <= i < |a| ==> ks[i] == a[i].0
  {
    seq(|a|, i requires 0 <= i < |a| => a[i].0)
  }

  /** `$a[$k]`: the value stored under `k`, absent when `k` is not a key. */
  function Lookup(a: seq<Entry>, k: string): Option<string> {
    if a == [] then None
    else if a[0].0 == k then Some(a[0].1)
    else Lookup(a[1..], k)
  }

  /** A key is found exactly when it is one of the keys. */
  lemma {:induction false} LookupFound(a: seq<Entry>, k: string)
    ensures Lookup(a, k).Some? <==> k in Keys(a)
  {
    if a != [] {
      LookupFound(a[1..], k);
      assert Keys(a) == [a[0].0] + Keys(a[1..]);
    }
  }

  /** In an array with distinct keys, a lookup finds the entry holding the key. */
  lemma {:induction false} LookupAt(a: seq<Entry>, i: nat)
    requires DistinctKeys(a)
    requires i < |a|
    ensures Lookup(a, a[i].0) == Some(a[i].1)
  {
    if i > 0 {
      LookupAt(a[1..], i - 1);
    }
  }

  /**
   * `$a[$k] = $v`: overwrites the value in place when `k` is a key, and
   * appends a new entry at the end otherwise.
   */
  function Put(a: seq<Entry>, k: string, v: string): (r: seq<Entry>)
    ensures |r| == if k in Keys(a) then |a| else |a| + 1
  {
    if a == [] then [(k, v)]
    else if a[0].0 == k then [(k, v)] + a[1..]
    else
      assert Keys(a) == [a[0].0] + Keys(a[1..]);
      [a[0]] + Put(a[1..], k, v)
  }

  /** After `Put`, `k` holds `v` and every other key holds what it held before. */
  lemma {:induction false} PutLookup(a: seq<Entry>, k: string, v: string, k': string)
    ensures Lookup(Put(a, k, v), k') == if k' == k then Some(v) else Lookup(a, k')
  {
    if a != [] && a[0].0 != k {
      PutLookup(a[1..], k, v, k');
    }
  }

  /** The keys of an array with one more entry in front. */
  lemma KeysCons(e: Entry, a: seq<Entry>)
    ensures Keys([e] + a) == [e.0] + Keys(a)
  {
  }

  /** `Put` keeps the keys and their order, adding `k` at the end when it is new. */
  lemma {:induction false} PutKeys(a: seq<Entry>, k: string, v: string)
    ensures Keys(Put(a, k, v)) == if k in Keys(a) then Keys(a) else Keys(a) + [k]
  {
    if a != [] {
      assert a == [a[0]] + a[1..];
      KeysCons(a[0], a[1..]);
      if a[0].0 == k {
        KeysCons((k, v), a[1..]);
      } else {
        var r' := Put(a[1..], k, v);
        PutKeys(a[1..], k, v);
        KeysCons(a[0], r');
        assert (k in Keys(a)) == (k in Keys(a[1..]));
      }
    }
  }

  /** `Put` keeps the keys distinct. */
  lemma PutDistinct(a: seq<Entry>, k: string, v: string)
    requires DistinctKeys(a)
    ensures DistinctKeys(Put(a, k, v))
  {
    var r := Put(a, k, v);
    PutKeys(a, k, v);
    var ks := Keys(r);
    forall i, j | 0 <= i < j < |r| ensures r[i].0 != r[j].0 {
      assert r[i].0 == ks[i] && r[j].0 == ks[j];
      if j < |a| {
        assert ks[i] == Keys(a)[i] && ks[j] == Keys(a)[j];
      } else {
        assert ks[i] == Keys(a)[i];
      }
    }
  }

  /** The keys of `ks` that `known` lacks, in their order in `ks`. */
  function NewKeys(known: seq<string>, ks: seq<string>): (r: seq<string>)
    ensures forall x :: x in r ==> x in ks && x !in known
  {
    if ks == [] then []
    else
      var last := ks[|ks| - 1];
      NewKeys(known, ks[..|ks| - 1]) + (if last in known then [] else [last])
  }

  /** Appending a key that `ks` lacks to `ks` extends the merged key order the way `Put` does. */
  lemma NewKeysSnoc(known: seq<string>, ks: seq<string>, merged: seq<string>, k: string)
    requires merged == known + NewKeys(known, ks)
    requires k !in ks
    ensures (if k in merged then merged else merged + [k]) == known + NewKeys(known, ks + [k])
  {
    var ks' := ks + [k];
    assert ks'[..|ks'| - 1] == ks && ks'[|ks'| - 1] == k;
    var nk := NewKeys(known, ks);
    if k in known {
      assert NewKeys(known, ks') == nk;
      assert merged[..|known|] == known;
    } else {
      assert NewKeys(known, ks') == nk + [k];
      assert k !in nk;
      assert known + (nk + [k]) == merged + [k];
    }
  }

  /**
   * `array_merge($base, $extra)` for string keys: an entry of `extra` whose key
   * is already present overwrites that value in place, any other entry is
   * appended, in `extra`'s order.
   */
  function Merge(base: Assoc, extra: Assoc): (r: Assoc)
    ensures forall k :: Lookup(r, k) == if Lookup(extra, k).Some? then Lookup(extra, k) else Lookup(base, k)
    ensures Keys(r) == Keys(base) + NewKeys(Keys(base), Keys(extra))
    decreases |extra|
  {
    if extra == [] then base
    else
      var n := |extra| - 1;
      var init: Assoc := extra[..n];
      var m := Merge(base, init);
      var (k, v) := extra[n];
      assert extra == init + [(k, v)];
      assert Keys(extra) == Keys(init) + [k];
      SnocFresh(init, (k, v));
      PutDistinct(m, k, v);
      PutKeys(m, k, v);
      NewKeysSnoc(Keys(base), Keys(init), Keys(m), k);
      forall k' ensures Lookup(Put(m, k, v), k') == if Lookup(extra, k').Some? then Lookup(extra, k') else Lookup(base, k') {
        PutLookup(m, k, v, k');
        LookupSnoc(init, (k, v), k');
      }
      Put(m, k, v)
  }

  /** The keys of `array_merge($base, $extra)` are those of `base` and those of `extra`. */
  lemma MergeKeys(base: Assoc, extra: Assoc, k: string)
    ensures k in Keys(Merge(base, extra)) <==> k in Keys(base) || k in Keys(extra)
  {
    LookupFound(Merge(base, extra), k);
    LookupFound(base, k);
    LookupFound(extra, k);
  }

  /** The last entry of an array's key is not among the earlier keys. */
  lemma SnocFresh(a: seq<Entry>, e: Entry)
    requires DistinctKeys(a + [e])
    ensures e.0 !in Keys(a)
  {
    forall i | 0 <= i < |a| ensures Keys(a)[i] != e.0 {
      assert (a + [e])[i] == a[i] && (a + [e])[|a|] == e;
    }
  }

  /** Looking up in an array extended at the end by an entry with a fresh key. */
  lemma {:induction false} LookupSnoc(a: seq<Entry>, e: Entry, k: string)
    requires e.0 !in Keys(a)
    ensures Lookup(a + [e], k) == if k == e.0 then Some(e.1) else Lookup(a, k)
  {
    if a == [] {
      assert a + [e] == [e];
    } else {
      assert (a + [e])[1..] == a[1..] + [e];
      assert Keys(a) == [a[0].0] + Keys(a[1..]);
      LookupSnoc(a[1..], e, k);
    }
  }
}
