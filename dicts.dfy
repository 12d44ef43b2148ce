/** Python dictionaries from string to string, which keep their keys in
    insertion order: a sequence of (key, value) entries with distinct keys.
    Assigning an existing key changes its value in place; a new key goes last. */
module Dicts {
  import opened Base

  type Entry = (string, string)

  predicate DistinctKeys(d: seq<Entry>)
  {
    forall i, j | 0 <= i < j < |d| :: d[i].0 != d[j].0
  }

  type Dict = d: seq<Entry> | DistinctKeys(d) witness []

  function Keys(d: seq<Entry>): (r: seq<string>)
    ensures |r| == |d| && forall i | 0 <= i < |d| :: r[i] == d[i].0
  {
    seq(|d|, i requires 0 <= i < |d| => d[i].0)
  }

  /** Position of key `k` in `d`, or |d| when `k` is absent. */
  function KeyIndex(d: seq<Entry>, k: string): (i: nat)
    ensures i <= |d|
    ensures i < |d| ==> d[i].0 == k
    ensures forall j | 0 <= j < i :: d[j].0 != k
    decreases |d|
  {
    if d == [] then 0 else if d[0].0 == k then 0 else 1 + KeyIndex(d[1..], k)
  }

  /** The first position holding `k` (or |d| when none does) is KeyIndex. */
  lemma KeyIndexUnique(d: seq<Entry>, k: string, i: nat)
    requires i <= |d| && (i < |d| ==> d[i].0 == k)
    requires forall j | 0 <= j < i :: d[j].0 != k
    ensures KeyIndex(d, k) == i
  {
  }

  /** `d.get(k)` */
  function Get(d: seq<Entry>, k: string): (r: Option<string>)
    ensures r.None? <==> k !in Keys(d)
  {
    var i := KeyIndex(d, k);
    if i < |d| then Some(d[i].1) else None
  }

  /** `d[k] = v`, as a new value. */
  function Put(d: Dict, k: string, v: string): (r: Dict)
    ensures Get(r, k) == Some(v)
    ensures forall k' | k' != k :: Get(r, k') == Get(d, k')
    ensures Keys(r) == if k in Keys(d) then Keys(d) else Keys(d) + [k]
  {
    var i := KeyIndex(d, k);
    var r: seq<Entry> := if i < |d| then d[i := (k, v)] else d + [(k, v)];
    KeyIndexUnique(r, k, i);
    forall k' | k' != k ensures Get(r, k') == Get(d, k') {
      KeyIndexAfterPut(d, k, v, k');
    }
    r
  }

  lemma KeyIndexAfterPut(d: Dict, k: string, v: string, k': string)
    requires k' != k
    ensures var i := KeyIndex(d, k);
            var r := if i < |d| then d[i := (k, v)] else d + [(k, v)];
            Get(r, k') == Get(d, k')
  {
    var i := KeyIndex(d, k);
    var r := if i < |d| then d[i := (k, v)] else d + [(k, v)];
    var j := KeyIndex(d, k');
    forall m | 0 <= m < j ensures r[m].0 != k' {
      assert m == i || r[m] == d[m];
    }
    if j < |d| {
      assert r[j] == d[j];
      KeyIndexUnique(r, k', j);
    } else {
      forall m | 0 <= m < |r| ensures r[m].0 != k' {
        assert (m < |d| && r[m].0 == d[m].0) || r[m].0 == k;
      }
      KeyIndexUnique(r, k', |r|);
    }
  }

  /** Entries of a dict are found by their own key. */
  lemma GetEntry(d: Dict, i: nat)
    requires i < |d|
    ensures KeyIndex(d, d[i].0) == i && Get(d, d[i].0) == Some(d[i].1)
  {
  }

  /** `{k: v for k, v in rows}`: later rows overwrite earlier values, a key keeps
      the position of its first row. */
  function FromEntries(rows: seq<Entry>): (r: Dict)
    ensures forall k :: k in Keys(r) <==> k in Keys(rows)
    decreases |rows|
  {
    if rows == [] then []
    else
      var last := rows[|rows| - 1];
      assert Keys(rows) == Keys(rows[..|rows| - 1]) + [last.0];
      Put(FromEntries(rows[..|rows| - 1]), last.0, last.1)
  }

  /** Rebuilding a dict from its own entries gives it back. */
  lemma {:induction false} FromEntriesOfDict(d: Dict)
    ensures FromEntries(d) == d
    decreases |d|
  {
    if d != [] {
      var n := |d| - 1;
      var prefix: Dict := d[..n];
      FromEntriesOfDict(prefix);
      assert d[..|d| - 1] == prefix;
      assert KeyIndex(prefix, d[n].0) == n by {
        forall j | 0 <= j < n ensures prefix[j].0 != d[n].0 {
          assert d[j].0 != d[n].0;
        }
      }
      assert prefix + [d[n]] == d;
    }
  }

  /** `base.update(top)` */
  function Update(base: Dict, top: Dict): (r: Dict)
    ensures forall k :: Get(r, k) == if k in Keys(top) then Get(top, k) else Get(base, k)
    decreases |top|
  {
    if top == [] then base
    else
      var rest: Dict := top[1..];
      assert forall k :: k in Keys(top) <==> k == top[0].0 || k in Keys(rest);
      assert top[0].0 !in Keys(rest);
      GetEntry(top, 0);
      forall k | k in Keys(rest) ensures Get(rest, k) == Get(top, k) {
        var j :| 0 <= j < |rest| && rest[j].0 == k;
        GetEntry(rest, j);
        GetEntry(top, j + 1);
      }
      Update(Put(base, top[0].0, top[0].1), rest)
  }
}
