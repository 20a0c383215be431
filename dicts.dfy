/**
 * Python dictionaries as the handler uses them: insertion-ordered entries with distinct
 * keys, where assigning to an existing key keeps its position and `pop` removes one entry.
 */
module Dicts {
  import opened Wrappers

  type Dict<V> = seq<(string, V)>

  /** The invariant every Python dict keeps. */
  predicate KeysDistinct<V>(d: Dict<V>)
  {
    forall i, j :: 0 <= i < j < |d| ==> d[i].0 != d[j].0
  }

  /** The keys of `d`, as a set. */
  function Keys<V>(d: Dict<V>): set<string>
  {
    set i | 0 <= i < |d| :: d[i].0
  }

  /** Position of the first entry whose key is `k`. */
  function IndexOf<V>(d: Dict<V>, k: string): (r: Option<nat>)
    ensures r.None? ==> forall j :: 0 <= j < |d| ==> d[j].0 != k
    ensures r.Some? ==> r.value < |d| && d[r.value].0 == k
    ensures r.Some? ==> forall j :: 0 <= j < r.value ==> d[j].0 != k
  {
    if d == [] then None
    else if d[0].0 == k then Some(0)
    else match IndexOf(d[1..], k)
      case None => None
      case Some(i) => Some(i + 1)
  }

  /** `d.get(k)`. */
  function Get<V>(d: Dict<V>, k: string): (r: Option<V>)
    ensures r.Some? <==> k in Keys(d)
  {
    match IndexOf(d, k)
    case None => None
    case Some(i) => Some(d[i].1)
  }

  /** Two dicts whose entries carry the same keys, position by position, find a key at the same position. */
  lemma SameKeysSameIndex<V>(d: Dict<V>, e: Dict<V>, k: string)
    requires |d| == |e|
    requires forall j :: 0 <= j < |d| ==> d[j].0 == e[j].0
    ensures IndexOf(d, k) == IndexOf(e, k)
  {
    var a, b := IndexOf(d, k), IndexOf(e, k);
    if a.Some? && b.Some? {
      assert !(a.value < b.value) && !(b.value < a.value);
    }
  }

  /** `d[k] = v`: overwrites in place when `k` is present, appends otherwise. */
  function Put<V>(d: Dict<V>, k: string, v: V): (r: Dict<V>)
    ensures forall k' :: Get(r, k') == if k' == k then Some(v) else Get(d, k')
    ensures Keys(r) == Keys(d) + {k}
    ensures KeysDistinct(d) ==> KeysDistinct(r)
    ensures k !in Keys(d) ==> r == d + [(k, v)]
  {
    match IndexOf(d, k)
    case Some(i) =>
      var r := d[i := (k, v)];
      assert forall k' :: IndexOf(r, k') == IndexOf(d, k') by {
        forall k' ensures IndexOf(r, k') == IndexOf(d, k') {
          SameKeysSameIndex(r, d, k');
        }
      }
      assert Keys(r) == Keys(d) by {
        forall x | x in Keys(d) ensures x in Keys(r) {
          var j :| 0 <= j < |d| && d[j].0 == x;
          assert r[j].0 == x;
        }
      }
      r
    case None =>
      var r := d + [(k, v)];
      assert forall j :: 0 <= j < |d| ==> r[j] == d[j];
      assert r[|d|].0 == k;
      assert forall k' :: k' != k ==> IndexOf(r, k') == IndexOf(d, k') by {
        forall k' | k' != k ensures IndexOf(r, k') == IndexOf(d, k') {
          var a, b := IndexOf(r, k'), IndexOf(d, k');
          if a.Some? && b.Some? {
            assert !(a.value < b.value) && !(b.value < a.value);
          }
        }
      }
      assert IndexOf(r, k) == Some(|d|);
      r
  }

  /** `d.pop(k)` for a present key: that one entry is gone, every other entry keeps its value and place. */
  function Pop<V>(d: Dict<V>, k: string): (r: Dict<V>)
    ensures IndexOf(d, k).None? ==> r == d
    ensures IndexOf(d, k).Some? ==> r == d[..IndexOf(d, k).value] + d[IndexOf(d, k).value + 1..]
    ensures KeysDistinct(d) ==> KeysDistinct(r)
    ensures KeysDistinct(d) ==> forall k' :: Get(r, k') == if k' == k then None else Get(d, k')
    ensures KeysDistinct(d) ==> Keys(r) == Keys(d) - {k}
  {
    match IndexOf(d, k)
    case None => d
    case Some(i) =>
      var r := d[..i] + d[i + 1..];
      assert forall j :: 0 <= j < |r| ==> r[j] == if j < i then d[j] else d[j + 1];
      if KeysDistinct(d) then
        assert forall k' :: Get(r, k') == if k' == k then None else Get(d, k') by {
          forall k' ensures Get(r, k') == if k' == k then None else Get(d, k') {
            var a, b := IndexOf(r, k'), IndexOf(d, k');
            if k' != k && b.Some? {
              assert b.value != i;
              var p := if b.value < i then b.value else b.value - 1;
              assert r[p].0 == k';
              assert a.Some?;
              var q := if a.value < i then a.value else a.value + 1;
              assert d[q].0 == k';
              assert q == b.value;
            }
          }
        }
        assert Keys(r) == Keys(d) - {k} by {
          forall x ensures x in Keys(r) <==> x in Keys(d) - {k} {
            assert Get(r, x).Some? <==> x in Keys(r);
            assert Get(d, x).Some? <==> x in Keys(d);
          }
        }
        r
      else
        r
  }

  /** The value the last entry for `k` carries, when there is one. */
  function LastValue<V>(ps: seq<(string, V)>, k: string): Option<V>
  {
    if ps == [] then None
    else if ps[|ps| - 1].0 == k then Some(ps[|ps| - 1].1)
    else LastValue(ps[..|ps| - 1], k)
  }

  /**
   * `{k: v for k, v in ps}`: the dict comprehension, in which a later entry for a key
   * overwrites an earlier one.
   */
  function FromPairs<V>(ps: seq<(string, V)>): (r: Dict<V>)
    ensures KeysDistinct(r)
    ensures forall k :: Get(r, k) == LastValue(ps, k)
  {
    if ps == [] then []
    else Put(FromPairs(ps[..|ps| - 1]), ps[|ps| - 1].0, ps[|ps| - 1].1)
  }

  /** Building a dict from entries that already have distinct keys keeps them, in order. */
  lemma {:induction false} FromPairsDistinct<V>(ps: seq<(string, V)>)
    requires KeysDistinct(ps)
    ensures FromPairs(ps) == ps
  {
    if ps != [] {
      var init := ps[..|ps| - 1];
      assert KeysDistinct(init);
      FromPairsDistinct(init);
      var last := ps[|ps| - 1];
      assert last.0 !in Keys(init);
      assert init + [last] == ps;
    }
  }
}
