/** A JavaScript object used as a dictionary (`Record<string, V>`): its own
    keys in insertion order, each once. Assigning `o[k] = v` replaces the value
    of an existing key where it stands and appends a new key at the end. */
module Records {
  import opened Base

  datatype Entry<V> = Entry(key: string, val: V)

  type Obj<V> = seq<Entry<V>>

  function Keys<V>(o: Obj<V>): (ks: seq<string>)
    ensures |ks| == |o| && forall i :: 0 <= i < |o| ==> ks[i] == o[i].key
  {
    if o == [] then [] else [o[0].key] + Keys(o[1..])
  }

  /** A well-formed object names each key once. */
  predicate WellFormed<V>(o: Obj<V>) {
    forall i, j :: 0 <= i < j < |o| ==> o[i].key != o[j].key
  }

  /** `o[k]`: the value under `k`, or undefined. */
  function Get<V>(o: Obj<V>, k: string): (r: Option<V>)
    ensures r.None? <==> forall i :: 0 <= i < |o| ==> o[i].key != k
    ensures r.Some? ==> exists i :: 0 <= i < |o| && o[i] == Entry(k, r.value)
  {
    if o == [] then None
    else if o[0].key == k then Some(o[0].val)
    else
      var r := Get(o[1..], k);
      assert r.Some? ==> exists i :: 1 <= i < |o| && o[i] == Entry(k, r.value) by {
        if r.Some? {
          var i :| 0 <= i < |o[1..]| && o[1..][i] == Entry(k, r.value);
          assert o[i + 1] == Entry(k, r.value);
        }
      }
      r
  }

  /** `o[k] = v`. */
  function Put<V>(o: Obj<V>, k: string, v: V): (r: Obj<V>)
    ensures Get(o, k).Some? ==> |r| == |o|
    ensures Get(o, k).None? ==> r == o + [Entry(k, v)]
  {
    if o == [] then [Entry(k, v)]
    else if o[0].key == k then [Entry(k, v)] + o[1..]
    else [o[0]] + Put(o[1..], k, v)
  }

  /** After `o[k] = v`, reading `k` gives `v`. */
  lemma {:induction false} PutGetSame<V>(o: Obj<V>, k: string, v: V)
    ensures Get(Put(o, k, v), k) == Some(v)
  {
    if o != [] && o[0].key != k {
      PutGetSame(o[1..], k, v);
      assert Put(o, k, v)[1..] == Put(o[1..], k, v);
    }
  }

  /** After `o[k] = v`, every other key reads as before. */
  lemma {:induction false} PutGetOther<V>(o: Obj<V>, k: string, v: V, k': string)
    requires k' != k
    ensures Get(Put(o, k, v), k') == Get(o, k')
  {
    if o != [] && o[0].key != k {
      PutGetOther(o[1..], k, v, k');
      assert Put(o, k, v)[1..] == Put(o[1..], k, v);
    } else if o != [] {
      assert Put(o, k, v)[1..] == o[1..];
    }
  }

  /** `o[k] = v` keeps the keys in place, appending `k` when it is new. */
  lemma {:induction false} PutKeys<V>(o: Obj<V>, k: string, v: V)
    ensures Keys(Put(o, k, v)) == if Get(o, k).Some? then Keys(o) else Keys(o) + [k]
  {
    if o != [] && o[0].key != k {
      PutKeys(o[1..], k, v);
      assert Put(o, k, v)[1..] == Put(o[1..], k, v);
      assert Keys(Put(o, k, v)) == [o[0].key] + Keys(Put(o[1..], k, v));
      assert Keys(o) == [o[0].key] + Keys(o[1..]);
    } else if o != [] {
      assert Put(o, k, v)[1..] == o[1..];
      assert Keys(Put(o, k, v)) == [k] + Keys(o[1..]);
      assert Keys(o) == [k] + Keys(o[1..]);
    }
  }

  /** `o[k] = v` keeps an object well-formed. */
  lemma PutWellFormed<V>(o: Obj<V>, k: string, v: V)
    requires WellFormed(o)
    ensures WellFormed(Put(o, k, v))
  {
    PutKeys(o, k, v);
    var r := Put(o, k, v);
    assert forall i :: 0 <= i < |r| ==> r[i].key == Keys(r)[i];
    assert forall i :: 0 <= i < |o| ==> o[i].key == Keys(o)[i];
  }
}
