/**
 * Python dictionaries with string keys, kept as association lists so that
 * the insertion order the report and its CSV export follow is part of the value.
 */
module OrderedDict {
  import opened Wrappers
  import opened Text

  function Keys<V>(d: seq<(string, V)>): (ks: seq<string>)
    ensures |ks| == |d| && forall i | 0 <= i < |d| :: ks[i] == d[i].0
  {
    if d == [] then [] else [d[0].0] + Keys(d[1..])
  }

  /** No key occurs twice, as in a dictionary. */
  predicate DistinctKeys<V>(d: seq<(string, V)>)
  {
    forall i, j | 0 <= i < j < |d| :: d[i].0 != d[j].0
  }

  /** `d.get(k)`: the value of the first entry with key `k`. */
  function Get<V>(d: seq<(string, V)>, k: string): (r: Option<V>)
    ensures r.None? <==> k !in Keys(d)
    ensures r.Some? ==> exists i | 0 <= i < |d| :: d[i] == (k, r.value)
  {
    if d == [] then None else if d[0].0 == k then Some(d[0].1) else Get(d[1..], k)
  }

  /**
   * `d[k] = v`: an existing key keeps its position and takes the new value;
   * a new key is appended.
   */
  function Put<V>(d: seq<(string, V)>, k: string, v: V): seq<(string, V)>
  {
    if d == [] then [(k, v)]
    else if d[0].0 == k then [(k, v)] + d[1..]
    else [d[0]] + Put(d[1..], k, v)
  }

  /** Assignment keeps the order of the keys and appends a new one. */
  lemma {:induction false} PutKeys<V>(d: seq<(string, V)>, k: string, v: V)
    ensures Keys(Put(d, k, v)) == if k in Keys(d) then Keys(d) else Keys(d) + [k]
  {
    if d == [] {
    } else if d[0].0 == k {
      assert Keys(Put(d, k, v)) == [k] + Keys(d[1..]);
      assert k in Keys(d) && Keys(d) == [k] + Keys(d[1..]);
    } else {
      PutKeys(d[1..], k, v);
      assert Keys(Put(d, k, v)) == [d[0].0] + Keys(Put(d[1..], k, v));
      assert Keys(d) == [d[0].0] + Keys(d[1..]);
      assert k in Keys(d) <==> k in Keys(d[1..]);
    }
  }

  /** After assignment the key looks up the new value, and every other key what it did before. */
  lemma {:induction false} PutGet<V>(d: seq<(string, V)>, k: string, v: V)
    ensures Get(Put(d, k, v), k) == Some(v)
    ensures forall k' | k' != k :: Get(Put(d, k, v), k') == Get(d, k')
  {
    if d != [] && d[0].0 != k {
      PutGet(d[1..], k, v);
      assert Put(d, k, v)[1..] == Put(d[1..], k, v);
    } else if d != [] {
      assert Put(d, k, v)[1..] == d[1..];
    }
  }

  /** Assignment adds no entry other than the one assigned. */
  lemma {:induction false} PutEntries<V>(d: seq<(string, V)>, k: string, v: V)
    ensures forall e | e in Put(d, k, v) :: e in d || e == (k, v)
  {
    if d != [] && d[0].0 != k {
      PutEntries(d[1..], k, v);
    }
  }

  /** With distinct keys, an entry is what looking its key up gives. */
  lemma {:induction false} GetDistinct<V>(d: seq<(string, V)>, k: string, v: V)
    requires DistinctKeys(d) && (k, v) in d
    ensures Get(d, k) == Some(v)
  {
    if d[0] != (k, v) {
      GetDistinct(d[1..], k, v);
    }
  }

  /** Assignment keeps the keys distinct, as they are in a dictionary. */
  lemma PutKeepsKeysDistinct<V>(d: seq<(string, V)>, k: string, v: V)
    requires DistinctKeys(d)
    ensures DistinctKeys(Put(d, k, v))
  {
    var r, ks := Put(d, k, v), Keys(d);
    PutKeys(d, k, v);
    forall i, j | 0 <= i < j < |r| ensures r[i].0 != r[j].0 {
      assert Keys(r)[i] == r[i].0 && Keys(r)[j] == r[j].0;
      if k !in ks && j == |ks| {
        assert ks[i] == d[i].0;
      } else {
        assert ks[i] == d[i].0 && ks[j] == d[j].0;
      }
    }
  }
}
