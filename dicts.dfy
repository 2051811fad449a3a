/** Python dicts with string keys as the chat client uses them: built by
    assignment, read by `d.get(k)` and `k in d`, iterated in insertion order.
    A dict is modelled by its items in insertion order. */
module Dicts {
  import opened Wrappers
  import opened PyText

  type Dict<V> = seq<(string, V)>

  /** `list(d.keys())`. */
  function Keys<V>(d: Dict<V>): (ks: seq<string>)
    ensures |ks| == |d| && forall i :: 0 <= i < |d| ==> ks[i] == d[i].0
  {
    if d == [] then [] else [d[0].0] + Keys(d[1..])
  }

  /** `d.get(k)`: the value stored under k, if any. */
  function Get<V>(d: Dict<V>, k: string): (r: Option<V>)
    ensures r.Some? <==> k in Keys(d)
  {
    if d == [] then None else if d[0].0 == k then Some(d[0].1) else Get(d[1..], k)
  }

  /** What `d.get(k)` answers is stored in d under k. */
  lemma {:induction false} GetStored<V>(d: Dict<V>, k: string)
    requires Get(d, k).Some?
    ensures (k, Get(d, k).value) in d
  {
    if d[0].0 != k {
      GetStored(d[1..], k);
    }
  }

  /** A key that first occurs at position i is answered by the i-th item. */
  lemma {:induction false} GetFirst<V>(d: Dict<V>, i: nat)
    requires i < |d|
    requires forall j :: 0 <= j < i ==> d[j].0 != d[i].0
    ensures Get(d, d[i].0) == Some(d[i].1)
  {
    if i > 0 {
      GetFirst(d[1..], i - 1);
    }
  }

  /** `d[k] = v`: an existing key keeps its place, a new key goes last. */
  function Put<V>(d: Dict<V>, k: string, v: V): (r: Dict<V>)
    ensures Get(r, k) == Some(v)
    ensures forall k' :: k' != k ==> Get(r, k') == Get(d, k')
  {
    if d == [] then [(k, v)]
    else if d[0].0 == k then [(k, v)] + d[1..]
    else [d[0]] + Put(d[1..], k, v)
  }

  lemma KeysCons<V>(item: (string, V), d: Dict<V>)
    ensures Keys([item] + d) == [item.0] + Keys(d)
  {
    assert ([item] + d)[1..] == d;
  }

  /** Assignment keeps the insertion order: an existing key keeps its place,
      a new key goes last. */
  lemma {:induction false} PutKeys<V>(d: Dict<V>, k: string, v: V)
    ensures Keys(Put(d, k, v)) == if k in Keys(d) then Keys(d) else Keys(d) + [k]
  {
    if d != [] {
      assert d == [d[0]] + d[1..];
      KeysCons(d[0], d[1..]);
      if d[0].0 == k {
        KeysCons((k, v), d[1..]);
      } else {
        PutKeys(d[1..], k, v);
        KeysCons(d[0], Put(d[1..], k, v));
        assert k in Keys(d) <==> k in Keys(d[1..]);
      }
    }
  }

  /** A Python dict never holds a key twice. */
  predicate UniqueKeys<V>(d: Dict<V>) {
    forall i, j :: 0 <= i < j < |d| ==> d[i].0 != d[j].0
  }

  /** Assignment keeps the keys unique. */
  lemma PutKeepsUniqueKeys<V>(d: Dict<V>, k: string, v: V)
    requires UniqueKeys(d)
    ensures UniqueKeys(Put(d, k, v))
  {
    PutKeys(d, k, v);
    var r := Put(d, k, v);
    forall i, j | 0 <= i < j < |r| ensures r[i].0 != r[j].0 {
      assert r[i].0 == Keys(r)[i] && r[j].0 == Keys(r)[j];
      if j < |d| {
        assert Keys(d)[i] == d[i].0 && Keys(d)[j] == d[j].0;
      }
    }
  }

  /** With unique keys, every item is what a lookup of its key answers. */
  lemma UniqueKeysGet<V>(d: Dict<V>, i: nat)
    requires UniqueKeys(d) && i < |d|
    ensures Get(d, d[i].0) == Some(d[i].1)
  {
    GetFirst(d, i);
  }

  /** `{str(i + 1): x for i, x in enumerate(xs)}`: a numbered menu. */
  function Enumerate(xs: seq<string>): (d: Dict<string>)
    ensures |d| == |xs|
    ensures forall i :: 0 <= i < |xs| ==> d[i] == (NatToString(i + 1), xs[i])
  {
    seq(|xs|, i requires 0 <= i < |xs| => (NatToString(i + 1), xs[i]))
  }

  /** Answering `str(i + 1)` to a numbered menu picks the i-th entry, and
      whatever an answer picks is one of the entries. */
  lemma EnumerateSelects(xs: seq<string>, i: nat)
    requires i < |xs|
    ensures Get(Enumerate(xs), NatToString(i + 1)) == Some(xs[i])
  {
    var d := Enumerate(xs);
    forall j | 0 <= j < i ensures d[j].0 != d[i].0 {
      assert d[j].0 == NatToString(j + 1) && d[i].0 == NatToString(i + 1);
      if d[j].0 == d[i].0 {
        NatToStringInjective(j + 1, i + 1);
        assert false;
      }
    }
    GetFirst(d, i);
  }

  lemma EnumeratePicksEntry(xs: seq<string>, answer: string)
    requires Get(Enumerate(xs), answer).Some?
    ensures Get(Enumerate(xs), answer).value in xs
  {
    var d := Enumerate(xs);
    var v := Get(d, answer).value;
    GetStored(d, answer);
    var i :| 0 <= i < |d| && d[i] == (answer, v);
    assert d[i] == (NatToString(i + 1), xs[i]);
  }

  /** What a selection prompt makes of the user's answer. */
  datatype Resolution<V> = Selected(value: V) | Cancelled | Invalid

  /** Every selection prompt of the client reads its answer the same way:
      strip it; if it is a key of the menu, select that entry; otherwise
      'cancel' in any letter case cancels, and anything else is invalid. */
  function Resolve<V>(menu: Dict<V>, answer: string): (res: Resolution<V>)
    ensures res.Selected? <==> Strip(answer) in Keys(menu)
    ensures res.Selected? ==> Get(menu, Strip(answer)) == Some(res.value)
    ensures res.Cancelled? <==> Strip(answer) !in Keys(menu) && Lower(Strip(answer)) == "cancel"
  {
    var choice := Strip(answer);
    match Get(menu, choice)
    case Some(v) => Selected(v)
    case None => if Lower(choice) == "cancel" then Cancelled else Invalid
  }
}
