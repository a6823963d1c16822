/**
 * JavaScript plain objects used as dictionaries, modelled as association
 * lists in property order. A key occurs at most once. Assigning an
 * existing key replaces its value in place; assigning a new key appends
 * it; `delete` removes it. This is the order `Object.keys` reports for
 * keys that are not array indices.
 */
module JsObject {
  import opened Wrappers

  /** The keys of an association list, in order. */
  function Keys<V>(o: seq<(string, V)>): (ks: seq<string>)
    ensures |ks| == |o|
    ensures forall i :: 0 <= i < |o| ==> ks[i] == o[i].0
  {
    seq(|o|, i requires 0 <= i < |o| => o[i].0)
  }

  predicate DistinctKeys<V>(o: seq<(string, V)>) {
    forall i, j :: 0 <= i < j < |o| ==> o[i].0 != o[j].0
  }

  /** A JavaScript object: each key at most once, in property order. */
  type Obj<V> = o: seq<(string, V)> | DistinctKeys(o) witness []

  /** Each key occurs once in the key order. */
  lemma {:induction false} KeysOnce<V>(o: Obj<V>, k: string)
    ensures multiset(Keys(o))[k] == if k in Keys(o) then 1 else 0
    decreases |o|
  {
    if o != [] {
      var front: Obj<V> := o[..|o| - 1];
      KeysOnce(front, k);
      assert Keys(o) == Keys(front) + [o[|o| - 1].0];
    }
  }

  /** Position of the first entry with key `k`, if any. */
  function IndexOf<V>(o: seq<(string, V)>, k: string): (r: Option<nat>)
    ensures r.Some? ==> r.value < |o| && o[r.value].0 == k
    ensures r.None? <==> k !in Keys(o)
  {
    if o == [] then None
    else if o[|o| - 1].0 == k && IndexOf(o[..|o| - 1], k).None? then Some(|o| - 1)
    else
      var r := IndexOf(o[..|o| - 1], k);
      assert Keys(o[..|o| - 1]) == Keys(o)[..|o| - 1];
      r
  }

  /** `o[k]`: the value stored under `k`, or undefined. */
  function Get<V>(o: Obj<V>, k: string): (r: Option<V>)
    ensures r.None? <==> k !in Keys(o)
    ensures forall i :: 0 <= i < |o| && o[i].0 == k ==> r == Some(o[i].1)
  {
    match IndexOf(o, k)
    case Some(i) => Some(o[i].1)
    case None => None
  }

  /** `o[k] = v` */
  function Set<V>(o: Obj<V>, k: string, v: V): (r: Obj<V>)
    ensures k in Keys(o) ==> Keys(r) == Keys(o)
    ensures k !in Keys(o) ==> Keys(r) == Keys(o) + [k]
    ensures Get(r, k) == Some(v)
    ensures forall k' :: k' != k ==> Get(r, k') == Get(o, k')
  {
    match IndexOf(o, k)
    case Some(i) =>
      var r := o[i := (k, v)];
      assert Keys(r) == Keys(o);
      r
    case None =>
      var r := o + [(k, v)];
      assert Keys(r) == Keys(o) + [k];
      r
  }

  /** `delete o[k]` */
  function Delete<V>(o: Obj<V>, k: string): (r: Obj<V>)
    ensures Get(r, k) == None
    ensures forall k' :: k' != k ==> Get(r, k') == Get(o, k')
    ensures k !in Keys(o) ==> r == o
    ensures forall i :: 0 <= i < |o| && o[i].0 == k ==> Keys(r) == Keys(o)[..i] + Keys(o)[i + 1..]
  {
    match IndexOf(o, k)
    case Some(i) =>
      RemoveAt(o, i);
      o[..i] + o[i + 1..]
    case None => o
  }

  /** Removing the entry at `i` keeps the keys distinct and every other entry. */
  lemma RemoveAt<V>(o: Obj<V>, i: nat)
    requires i < |o|
    ensures DistinctKeys(o[..i] + o[i + 1..])
    ensures var r: Obj<V> := o[..i] + o[i + 1..];
      && Get(r, o[i].0) == None
      && (forall k' :: k' != o[i].0 ==> Get(r, k') == Get(o, k'))
      && Keys(r) == Keys(o)[..i] + Keys(o)[i + 1..]
  {
    var r := o[..i] + o[i + 1..];
    assert forall j :: 0 <= j < |r| ==> r[j] == if j < i then o[j] else o[j + 1];
    assert DistinctKeys(r);
    assert Keys(r) == Keys(o)[..i] + Keys(o)[i + 1..];
    forall k' | k' != o[i].0
      ensures Get(r, k') == Get(o, k')
    {
      if k' in Keys(o) {
        var j :| 0 <= j < |o| && o[j].0 == k';
        assert r[if j < i then j else j - 1] == o[j];
      }
    }
  }

  /** The assignments `kvs` performed on `o` in order (`Object.assign(o, kvs)`). */
  function SetAll<V>(o: Obj<V>, kvs: seq<(string, V)>): Obj<V>
    decreases |kvs|
  {
    if kvs == [] then o
    else Set(SetAll(o, kvs[..|kvs| - 1]), kvs[|kvs| - 1].0, kvs[|kvs| - 1].1)
  }

  /** The value of the last assignment to `k` in `kvs`, if there is one. */
  function LastFor<V>(kvs: seq<(string, V)>, k: string): (r: Option<V>)
    ensures r.None? <==> k !in Keys(kvs)
  {
    if kvs == [] then None
    else if kvs[|kvs| - 1].0 == k then Some(kvs[|kvs| - 1].1)
    else
      assert Keys(kvs[..|kvs| - 1]) == Keys(kvs)[..|kvs| - 1];
      LastFor(kvs[..|kvs| - 1], k)
  }

  /** When every write for `k` carries `v`, and there is one, the last write for `k` is `v`. */
  lemma {:induction false} LastForOnlyValue<V>(kvs: seq<(string, V)>, k: string, v: V)
    requires (k, v) in kvs
    requires forall w :: w in kvs && w.0 == k ==> w.1 == v
    ensures LastFor(kvs, k) == Some(v)
    decreases |kvs|
  {
    var init := kvs[..|kvs| - 1];
    if kvs[|kvs| - 1].0 != k {
      assert (k, v) in init by {
        var n :| 0 <= n < |kvs| && kvs[n] == (k, v);
        assert n < |kvs| - 1 && init[n] == kvs[n];
      }
      assert forall w :: w in init ==> w in kvs;
      LastForOnlyValue(init, k, v);
    }
  }

  /** One more assignment at the end. */
  lemma SetAllSnoc<V>(o: Obj<V>, a: seq<(string, V)>, k: string, v: V)
    ensures SetAll(o, a + [(k, v)]) == Set(SetAll(o, a), k, v)
  {
    assert (a + [(k, v)])[..|a|] == a;
  }

  /** Assigning `a` then `b` is assigning `a + b`. */
  lemma {:induction false} SetAllAppend<V>(o: Obj<V>, a: seq<(string, V)>, b: seq<(string, V)>)
    ensures SetAll(o, a + b) == SetAll(SetAll(o, a), b)
    decreases |b|
  {
    if b == [] {
      assert a + b == a;
    } else {
      var b' := b[..|b| - 1];
      assert (a + b)[..|a + b| - 1] == a + b';
      SetAllAppend(o, a, b');
    }
  }

  /** After the assignments, `k` holds the value of its last assignment, or its old value if none. */
  lemma {:induction false} SetAllGet<V>(o: Obj<V>, kvs: seq<(string, V)>, k: string)
    ensures Get(SetAll(o, kvs), k) == if k in Keys(kvs) then LastFor(kvs, k) else Get(o, k)
    decreases |kvs|
  {
    if kvs != [] {
      var front := kvs[..|kvs| - 1];
      assert Keys(front) == Keys(kvs)[..|kvs| - 1];
      assert Keys(kvs) == Keys(front) + [kvs[|kvs| - 1].0];
      SetAllGet(o, front, k);
    }
  }

  /** The keys after the assignments are the old keys and the assigned ones. */
  lemma SetAllKeys<V>(o: Obj<V>, kvs: seq<(string, V)>, k: string)
    ensures k in Keys(SetAll(o, kvs)) <==> k in Keys(o) || k in Keys(kvs)
  {
    SetAllGet(o, kvs, k);
  }

  /** Assignments never move an existing key: the old key order is a prefix of the new one. */
  lemma {:induction false} SetAllKeepsOrder<V>(o: Obj<V>, kvs: seq<(string, V)>)
    ensures Keys(o) <= Keys(SetAll(o, kvs))
    decreases |kvs|
  {
    if kvs != [] {
      SetAllKeepsOrder(o, kvs[..|kvs| - 1]);
    }
  }

  /** `Object.assign({}, o)` is a copy of `o`, in the same key order. */
  lemma {:induction false} AssignIntoEmpty<V>(o: Obj<V>)
    ensures SetAll([], o) == o
    decreases |o|
  {
    if o != [] {
      var front := o[..|o| - 1];
      AssignIntoEmpty(front);
      assert o[|o| - 1].0 !in Keys(front);
      assert front + [o[|o| - 1]] == o;
    }
  }
}
