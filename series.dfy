/**
 * A grouped series: what `groupby(key)['amount'].sum()` yields, held as a list of
 * (key, total) entries, one per group. `Insert` builds the date-keyed series in
 * ascending key order; `Add` builds a series whose keys have no order.
 */
module Series {

  /** One group of a series: its key and the summed amount of its rows. */
  datatype Entry<K> = Entry(key: K, total: int)

  /** The keys present in a series. */
  function Keys<K(==)>(s: seq<Entry<K>>): set<K>
  {
    if s == [] then {} else {s[0].key} + Keys(s[1..])
  }

  /** The total of the first entry with key `k`, or 0 when `k` has no entry. */
  function Lookup<K(==)>(s: seq<Entry<K>>, k: K): int
  {
    if s == [] then 0
    else if s[0].key == k then s[0].total
    else Lookup(s[1..], k)
  }

  /** The sum of all totals of a series. */
  function SeriesTotal<K>(s: seq<Entry<K>>): int
  {
    if s == [] then 0 else s[0].total + SeriesTotal(s[1..])
  }

  /** No key has two entries. */
  predicate DistinctKeys<K(==)>(s: seq<Entry<K>>)
  {
    s == [] || (s[0].key !in Keys(s[1..]) && DistinctKeys(s[1..]))
  }

  /** Every key is smaller than the key of the entry after it. */
  predicate Ascending(s: seq<Entry<int>>)
  {
    forall i :: 0 <= i < |s| - 1 ==> s[i].key < s[i + 1].key
  }

  lemma {:induction false} KeysIndex<K>(s: seq<Entry<K>>, k: K)
    ensures k in Keys(s) <==> exists i :: 0 <= i < |s| && s[i].key == k
  {
    if s != [] {
      KeysIndex(s[1..], k);
      if k in Keys(s[1..]) {
        var i :| 0 <= i < |s[1..]| && s[1..][i].key == k;
        assert s[i + 1].key == k;
      }
      if exists i :: 0 <= i < |s| && s[i].key == k {
        var i :| 0 <= i < |s| && s[i].key == k;
        if i > 0 {
          assert s[1..][i - 1].key == k;
        }
      }
    }
  }

  lemma {:induction false} LookupAbsent<K>(s: seq<Entry<K>>, k: K)
    requires k !in Keys(s)
    ensures Lookup(s, k) == 0
  {
    if s != [] {
      LookupAbsent(s[1..], k);
    }
  }

  /** In an ascending series the first key is the smallest. */
  lemma {:induction false} AscendingHead(s: seq<Entry<int>>)
    requires Ascending(s) && s != []
    ensures forall k :: k in Keys(s) ==> s[0].key <= k
  {
    if |s| > 1 {
      assert Ascending(s[1..]);
      AscendingHead(s[1..]);
    }
  }

  /** A key below the first key of an ascending series has no entry in it. */
  lemma BelowHead(s: seq<Entry<int>>, k: int)
    requires s != [] && k < s[0].key
    ensures Ascending(s) ==> k !in Keys(s) && Lookup(s, k) == 0
  {
    if Ascending(s) {
      AscendingHead(s);
      LookupAbsent(s, k);
    }
  }

  /** Ascending between neighbours is ascending between any two entries. */
  lemma {:induction false} AscendingAt(s: seq<Entry<int>>)
    requires Ascending(s)
    ensures forall i, j :: 0 <= i < j < |s| ==> s[i].key < s[j].key
  {
    if s != [] {
      assert Ascending(s[1..]);
      AscendingAt(s[1..]);
      forall j | 0 < j < |s|
        ensures s[0].key < s[j].key
      {
        if j > 1 {
          assert s[1..][0].key < s[1..][j - 1].key;
        }
      }
    }
  }

  lemma {:induction false} AscendingDistinct(s: seq<Entry<int>>)
    requires Ascending(s)
    ensures DistinctKeys(s)
  {
    if s != [] {
      assert Ascending(s[1..]);
      AscendingDistinct(s[1..]);
      if |s| > 1 {
        AscendingHead(s[1..]);
      }
    }
  }

  /** With distinct keys, looking up an entry's key gives that entry's total. */
  lemma {:induction false} LookupAt<K>(s: seq<Entry<K>>, i: nat)
    requires DistinctKeys(s) && i < |s|
    ensures Lookup(s, s[i].key) == s[i].total
  {
    if i > 0 {
      KeysIndex(s[1..], s[i].key);
      assert s[1..][i - 1] == s[i];
      LookupAt(s[1..], i - 1);
    }
  }

  /** With distinct keys, a series has exactly one entry per key. */
  lemma {:induction false} DistinctCount<K>(s: seq<Entry<K>>)
    requires DistinctKeys(s)
    ensures |Keys(s)| == |s|
  {
    if s != [] {
      DistinctCount(s[1..]);
    }
  }

  /**
   * Adds `v` to the group of key `k` of an ascending series: a new key goes in at
   * its place in key order, an existing key has its total increased.
   */
  function Insert(s: seq<Entry<int>>, k: int, v: int): (r: seq<Entry<int>>)
    ensures r != [] && (r[0].key == k || (s != [] && r[0].key == s[0].key))
    ensures Keys(r) == Keys(s) + {k}
    ensures SeriesTotal(r) == SeriesTotal(s) + v
    ensures Ascending(s) ==> Ascending(r)
    ensures Ascending(s) ==> forall x :: Lookup(r, x) == Lookup(s, x) + (if x == k then v else 0)
  {
    if s == [] then [Entry(k, v)]
    else if k < s[0].key then
      BelowHead(s, k);
      [Entry(k, v)] + s
    else if k == s[0].key then [Entry(k, s[0].total + v)] + s[1..]
    else [s[0]] + Insert(s[1..], k, v)
  }

  /**
   * Adds `v` to the group of key `k` of a series whose keys are unordered: a new
   * key gets an entry at the end, an existing key has its total increased.
   */
  function Add<K(==,!new)>(s: seq<Entry<K>>, k: K, v: int): (r: seq<Entry<K>>)
    ensures Keys(r) == Keys(s) + {k}
    ensures SeriesTotal(r) == SeriesTotal(s) + v
    ensures forall x :: Lookup(r, x) == Lookup(s, x) + (if x == k then v else 0)
    ensures DistinctKeys(s) ==> DistinctKeys(r)
  {
    if s == [] then [Entry(k, v)]
    else if s[0].key == k then [Entry(k, s[0].total + v)] + s[1..]
    else [s[0]] + Add(s[1..], k, v)
  }
}
