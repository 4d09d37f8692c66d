/**
 * Python dictionaries as association lists. A Python `dict` remembers the
 * order in which keys were first inserted, and the agents rely on that order
 * (`per_part` order in the speaking report), so a dictionary is a sequence of
 * key/value pairs rather than a Dafny `map`.
 */
module PyDict {
  import opened Wrappers

  type Dict<V> = seq<(string, V)>

  function Keys<V>(d: Dict<V>): (ks: seq<string>)
    ensures |ks| == |d|
    ensures forall i :: 0 <= i < |d| ==> ks[i] == d[i].0
  {
    seq(|d|, i requires 0 <= i < |d| => d[i].0)
  }

  predicate UniqueKeys<V>(d: Dict<V>) {
    forall i, j :: 0 <= i < j < |d| ==> d[i].0 != d[j].0
  }

  /** The position of key `k`, the first one if the list repeats it. */
  function IndexOf<V>(d: Dict<V>, k: string): (r: Option<nat>)
    ensures r.Some? ==> r.value < |d| && d[r.value].0 == k
    ensures r.Some? ==> forall j :: 0 <= j < r.value ==> d[j].0 != k
    ensures r.None? ==> forall j :: 0 <= j < |d| ==> d[j].0 != k
  {
    if d == [] then None
    else if d[0].0 == k then Some(0)
    else match IndexOf(d[1..], k)
      case None => None
      case Some(i) => Some(i + 1)
  }

  /** Python `k in d`. */
  predicate HasKey<V>(d: Dict<V>, k: string) {
    IndexOf(d, k).Some?
  }

  /** Python `d.get(k)`, with None for a missing key. */
  function Get<V>(d: Dict<V>, k: string): (r: Option<V>)
    ensures r.Some? <==> HasKey(d, k)
  {
    match IndexOf(d, k)
    case None => None
    case Some(i) => Some(d[i].1)
  }

  /** Python `d.get(k, default)`. */
  function GetOr<V>(d: Dict<V>, k: string, default: V): V {
    match Get(d, k)
    case None => default
    case Some(v) => v
  }

  /** Python `d[k] = v`: an existing key keeps its position, a new key goes last. */
  function Put<V>(d: Dict<V>, k: string, v: V): (r: Dict<V>)
    ensures Get(r, k) == Some(v)
    ensures HasKey(d, k) ==> Keys(r) == Keys(d)
    ensures !HasKey(d, k) ==> r == d + [(k, v)]
    ensures forall k' :: k' != k ==> Get(r, k') == Get(d, k')
  {
    match IndexOf(d, k)
    case None =>
      var r := d + [(k, v)];
      assert forall k' :: IndexOf(r, k') == (if HasKey(d, k') then IndexOf(d, k') else if k' == k then Some(|d|) else None) by {
        forall k' ensures IndexOf(r, k') == (if HasKey(d, k') then IndexOf(d, k') else if k' == k then Some(|d|) else None) {
          IndexOfAppend(d, k, v, k');
        }
      }
      r
    case Some(i) =>
      var r := d[i := (k, v)];
      assert forall k' :: IndexOf(r, k') == IndexOf(d, k') by {
        forall k' ensures IndexOf(r, k') == IndexOf(d, k') {
          IndexOfSameKeys(r, d, k');
        }
      }
      r
  }

  lemma {:induction false} IndexOfAppend<V>(d: Dict<V>, k: string, v: V, k': string)
    ensures IndexOf(d + [(k, v)], k') ==
      (if HasKey(d, k') then IndexOf(d, k') else if k' == k then Some(|d|) else None)
  {
    if d != [] {
      assert (d + [(k, v)])[1..] == d[1..] + [(k, v)];
      IndexOfAppend(d[1..], k, v, k');
    }
  }

  /** Two lists with the same keys in the same places find a key at the same place. */
  lemma {:induction false} IndexOfSameKeys<V>(a: Dict<V>, b: Dict<V>, k: string)
    requires |a| == |b| && forall i :: 0 <= i < |a| ==> a[i].0 == b[i].0
    ensures IndexOf(a, k) == IndexOf(b, k)
  {
    if a != [] && a[0].0 != k {
      IndexOfSameKeys(a[1..], b[1..], k);
    }
  }

  /** The keys of two lists one after the other. */
  lemma KeysAppend<V>(a: Dict<V>, b: Dict<V>)
    ensures Keys(a + b) == Keys(a) + Keys(b)
  {
  }

  /** Looking up in two lists one after the other: the first list wins. */
  lemma {:induction false} GetAppend<V>(a: Dict<V>, b: Dict<V>, k: string)
    ensures Get(a + b, k) == if HasKey(a, k) then Get(a, k) else Get(b, k)
  {
    IndexOfAppendList(a, b, k);
  }

  lemma {:induction false} IndexOfAppendList<V>(a: Dict<V>, b: Dict<V>, k: string)
    ensures IndexOf(a + b, k) ==
      if IndexOf(a, k).Some? then IndexOf(a, k)
      else if IndexOf(b, k).Some? then Some(|a| + IndexOf(b, k).value) else None
  {
    if a != [] {
      assert (a + b)[0] == a[0];
      assert (a + b)[1..] == a[1..] + b;
      IndexOfAppendList(a[1..], b, k);
    } else {
      assert a + b == b;
    }
  }

  /** With unique keys, looking up any key finds its own entry. */
  lemma GetOfUnique<V>(d: Dict<V>)
    requires UniqueKeys(d)
    ensures forall i :: 0 <= i < |d| ==> Get(d, d[i].0) == Some(d[i].1)
  {
    forall i | 0 <= i < |d|
      ensures Get(d, d[i].0) == Some(d[i].1)
    {
      var j := IndexOf(d, d[i].0);
      assert j.Some?;
    }
  }
}
