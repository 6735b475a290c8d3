/** A JavaScript object used as a dictionary from string keys (`Record<string, V>`):
    a list of entries in insertion order.  Assigning to a key that is already
    present replaces its value where it stands; a new key goes at the end. */
module Records {
  import opened Types

  datatype Entry<V> = Entry(key: string, value: V)

  type Record<V> = seq<Entry<V>>

  function Keys<V>(r: Record<V>): (ks: seq<string>)
    ensures |ks| == |r|
    ensures forall i :: 0 <= i < |r| ==> ks[i] == r[i].key
  {
    seq(|r|, i requires 0 <= i < |r| => r[i].key)
  }

  /** `Object.values(r)`, in insertion order. */
  function Values<V>(r: Record<V>): (vs: seq<V>)
    ensures |vs| == |r|
    ensures forall i :: 0 <= i < |r| ==> vs[i] == r[i].value
  {
    seq(|r|, i requires 0 <= i < |r| => r[i].value)
  }

  predicate DistinctKeys<V>(r: Record<V>)
  {
    forall i, j :: 0 <= i < j < |r| ==> r[i].key != r[j].key
  }

  /** `r[k]`: the value stored under `k`, or None (JavaScript's undefined). */
  function Lookup<V>(r: Record<V>, k: string): (o: Option<V>)
    ensures o.Some? <==> k in Keys(r)
  {
    if r == [] then None
    else if r[0].key == k then Some(r[0].value)
    else
      assert Keys(r) == [r[0].key] + Keys(r[1..]);
      Lookup(r[1..], k)
  }

  /** When no key is repeated, reading the key of an entry gives that entry's value. */
  lemma {:induction false} LookupAt<V>(r: Record<V>, i: nat)
    requires DistinctKeys(r)
    requires i < |r|
    ensures Lookup(r, r[i].key) == Some(r[i].value)
  {
    if i > 0 {
      assert r[0].key != r[i].key;
      assert r[1..][i - 1] == r[i];
      LookupAt(r[1..], i - 1);
    }
  }

  /** `r[k] = v`. */
  function Put<V>(r: Record<V>, k: string, v: V): (r': Record<V>)
    ensures k in Keys(r) ==> Keys(r') == Keys(r)
    ensures k !in Keys(r) ==> r' == r + [Entry(k, v)]
  {
    if r == [] then [Entry(k, v)]
    else
      KeysCons(r[0], r[1..]);
      assert [r[0]] + r[1..] == r;
      if r[0].key == k then
        KeysCons(Entry(k, v), r[1..]);
        [Entry(k, v)] + r[1..]
      else
        var rest := Put(r[1..], k, v);
        KeysCons(r[0], rest);
        assert [r[0]] + (r[1..] + [Entry(k, v)]) == r + [Entry(k, v)];
        [r[0]] + rest
  }

  lemma KeysCons<V>(e: Entry<V>, r: Record<V>)
    ensures Keys([e] + r) == [e.key] + Keys(r)
  {
    var a, b := Keys([e] + r), [e.key] + Keys(r);
    forall i | 0 <= i < |a| ensures a[i] == b[i] {
      if i > 0 {
        assert ([e] + r)[i] == r[i - 1];
      }
    }
  }

  /** After `r[k] = v`, reading `k` gives `v` and every other key reads as before. */
  lemma {:induction false} PutLookup<V>(r: Record<V>, k: string, v: V, k': string)
    ensures Lookup(Put(r, k, v), k') == if k' == k then Some(v) else Lookup(r, k')
  {
    if r != [] && r[0].key != k {
      PutLookup(r[1..], k, v, k');
      assert Put(r, k, v)[1..] == Put(r[1..], k, v);
    }
  }

  /** Assignment never creates a second entry for a key. */
  lemma {:induction false} PutKeepsKeysDistinct<V>(r: Record<V>, k: string, v: V)
    requires DistinctKeys(r)
    ensures DistinctKeys(Put(r, k, v))
  {
    var r' := Put(r, k, v);
    forall i, j | 0 <= i < j < |r'| ensures r'[i].key != r'[j].key {
      if k in Keys(r) {
        assert Keys(r')[i] == Keys(r)[i] && Keys(r')[j] == Keys(r)[j];
      } else {
        assert j < |r| ==> Keys(r')[j] == Keys(r)[j];
        assert Keys(r')[i] == Keys(r)[i];
      }
    }
  }

  /** The object after assigning the entries `es` to `r` one after another. */
  function PutAll<V>(r: Record<V>, es: seq<Entry<V>>): Record<V>
  {
    if es == [] then r
    else
      var e := es[|es| - 1];
      Put(PutAll(r, es[..|es| - 1]), e.key, e.value)
  }

  /** Assigning entries never creates a second entry for a key. */
  lemma {:induction false} PutAllKeepsKeysDistinct<V>(r: Record<V>, es: seq<Entry<V>>)
    requires DistinctKeys(r)
    ensures DistinctKeys(PutAll(r, es))
  {
    if es != [] {
      var e := es[|es| - 1];
      PutAllKeepsKeysDistinct(r, es[..|es| - 1]);
      PutKeepsKeysDistinct(PutAll(r, es[..|es| - 1]), e.key, e.value);
    }
  }

  /** Starting from the empty object, the keys are those of the assigned entries. */
  lemma {:induction false} PutAllKeys<V>(es: seq<Entry<V>>, k: string)
    ensures k in Keys(PutAll([], es)) <==> k in Keys(es)
  {
    if es != [] {
      var init, e := es[..|es| - 1], es[|es| - 1];
      var r := PutAll([], init);
      PutAllKeys(init, k);
      assert Keys(es) == Keys(init) + [e.key];
      if e.key !in Keys(r) {
        assert Keys(r + [e]) == Keys(r) + [e.key];
      }
    }
  }

  /** When all entries assigned to one key carry the same value, reading any of
      their keys afterwards gives that value. */
  lemma {:induction false} PutAllLookup<V>(es: seq<Entry<V>>, i: nat)
    requires i < |es|
    requires forall a, b :: 0 <= a < |es| && 0 <= b < |es| && es[a].key == es[b].key ==> es[a].value == es[b].value
    ensures Lookup(PutAll([], es), es[i].key) == Some(es[i].value)
  {
    var init, e := es[..|es| - 1], es[|es| - 1];
    var r := PutAll([], init);
    if i == |es| - 1 {
      PutLookup(r, e.key, e.value, e.key);
    } else {
      assert init[i] == es[i];
      PutAllLookup(init, i);
      PutLookup(r, e.key, e.value, es[i].key);
    }
  }

  /** Entries with distinct keys all go at the end, in order. */
  lemma {:induction false} PutAllFreshKeys<V>(es: seq<Entry<V>>)
    requires DistinctKeys(es)
    ensures PutAll([], es) == es
  {
    if es != [] {
      var init, e := es[..|es| - 1], es[|es| - 1];
      assert DistinctKeys(init);
      PutAllFreshKeys(init);
      assert e.key !in Keys(init) by {
        forall i | 0 <= i < |init| ensures Keys(init)[i] != e.key {
          assert init[i] == es[i];
        }
      }
      assert init + [e] == es;
    }
  }
}
