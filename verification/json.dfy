/** The JSON value tree that `JSON.stringify` serialises. An object keeps
    its members in insertion order, as JavaScript objects with
    non-numeric keys do; that order is the key order of the text. */
module Json {
  import opened Wrappers

  datatype Json =
    | JNull
    | JBool(b: bool)
    | JNum(n: real)
    | JStr(s: string)
    | JArr(items: seq<Json>)
    | JObj(members: seq<Member>)

  datatype Member = Member(key: string, value: Json)

  /** The keys of an object, in order. */
  function Keys(ms: seq<Member>): (ks: seq<string>)
    ensures |ks| == |ms|
    ensures forall i :: 0 <= i < |ms| ==> ks[i] == ms[i].key
    decreases |ms|
  {
    if |ms| == 0 then [] else [ms[0].key] + Keys(ms[1..])
  }

  /** No key occurs twice, as in any JavaScript object. */
  predicate UniqueKeys(ms: seq<Member>) {
    forall i, j :: 0 <= i < j < |ms| ==> ms[i].key != ms[j].key
  }

  /** The value of property `k`, if any: `obj[k]`. */
  function Get(ms: seq<Member>, k: string): (r: Option<Json>)
    ensures r.None? <==> k !in Keys(ms)
    ensures r.Some? ==> Member(k, r.value) in ms
    decreases |ms|
  {
    if |ms| == 0 then None
    else if ms[0].key == k then Some(ms[0].value)
    else Get(ms[1..], k)
  }

  /** Property assignment `obj[k] = v` (also `{...obj, k: v}`). */
  function Put(ms: seq<Member>, k: string, v: Json): seq<Member>
    decreases |ms|
  {
    if |ms| == 0 then [Member(k, v)]
    else if ms[0].key == k then [Member(k, v)] + ms[1..]
    else [ms[0]] + Put(ms[1..], k, v)
  }

  /** After `obj[k] = v`, `obj[k]` is `v`. */
  lemma {:induction false} PutGet(ms: seq<Member>, k: string, v: Json)
    ensures Get(Put(ms, k, v), k) == Some(v)
    decreases |ms|
  {
    if |ms| > 0 && ms[0].key != k {
      var r := Put(ms, k, v);
      assert r[1..] == Put(ms[1..], k, v);
      PutGet(ms[1..], k, v);
    }
  }

  /** `obj[k] = v` leaves every other property as it was. */
  lemma {:induction false} PutGetOther(ms: seq<Member>, k: string, v: Json, k': string)
    requires k' != k
    ensures Get(Put(ms, k, v), k') == Get(ms, k')
    decreases |ms|
  {
    if |ms| > 0 {
      var r := Put(ms, k, v);
      assert r[1..] == (if ms[0].key == k then ms[1..] else Put(ms[1..], k, v));
      if ms[0].key != k {
        PutGetOther(ms[1..], k, v, k');
      }
    }
  }

  /** An existing key keeps its place; a new key goes last. */
  lemma {:induction false} PutKeys(ms: seq<Member>, k: string, v: Json)
    ensures k in Keys(ms) ==> Keys(Put(ms, k, v)) == Keys(ms)
    ensures k !in Keys(ms) ==> Keys(Put(ms, k, v)) == Keys(ms) + [k]
    decreases |ms|
  {
    if |ms| > 0 {
      var r := Put(ms, k, v);
      if ms[0].key == k {
        assert r[1..] == ms[1..];
      } else {
        assert r[1..] == Put(ms[1..], k, v);
        PutKeys(ms[1..], k, v);
        assert Keys(ms) == [ms[0].key] + Keys(ms[1..]);
      }
    }
  }

  /** Property `k` set to `undefined`: `JSON.stringify` leaves it out of the
      text, so it is absent from the tree. */
  function Delete(ms: seq<Member>, k: string): (r: seq<Member>)
    ensures k !in Keys(r)
    ensures forall k' :: k' != k ==> Get(r, k') == Get(ms, k')
    ensures forall x :: x in Keys(r) <==> x in Keys(ms) && x != k
    decreases |ms|
  {
    if |ms| == 0 then []
    else
      var rest := Delete(ms[1..], k);
      if ms[0].key == k then rest
      else
        var r := [ms[0]] + rest;
        assert r[1..] == rest;
        r
  }

  /** Assignment never creates a second member with the same key. */
  lemma PutKeepsUniqueKeys(ms: seq<Member>, k: string, v: Json)
    requires UniqueKeys(ms)
    ensures UniqueKeys(Put(ms, k, v))
  {
    var r := Put(ms, k, v);
    var ks, rs := Keys(ms), Keys(r);
    PutKeys(ms, k, v);
    forall i, j | 0 <= i < j < |r| ensures r[i].key != r[j].key {
      assert rs[i] == r[i].key && rs[j] == r[j].key;
      if j < |ms| {
        assert rs[i] == ks[i] && rs[j] == ks[j];
      } else {
        assert rs[i] == ks[i];
      }
    }
  }

  /** `{...ms, k1: v1, k2: v2, ...}`: the members of `us` assigned in order. */
  function Assign(ms: seq<Member>, us: seq<Member>): (r: seq<Member>)
    decreases |us|
  {
    if |us| == 0 then ms
    else Assign(Put(ms, us[0].key, us[0].value), us[1..])
  }

  /** After the assignments, each assigned key holds the value it was given,
      provided no key is assigned twice. */
  lemma {:induction false} AssignSets(ms: seq<Member>, us: seq<Member>, i: nat)
    requires UniqueKeys(us) && i < |us|
    ensures Get(Assign(ms, us), us[i].key) == Some(us[i].value)
    decreases |us|
  {
    var ms' := Put(ms, us[0].key, us[0].value);
    if i == 0 {
      PutGet(ms, us[0].key, us[0].value);
      AssignKeeps(ms', us[1..], us[0].key);
    } else {
      AssignSets(ms', us[1..], i - 1);
    }
  }

  /** A key that is not assigned keeps its value. */
  lemma {:induction false} AssignKeeps(ms: seq<Member>, us: seq<Member>, k: string)
    requires forall i :: 0 <= i < |us| ==> us[i].key != k
    ensures Get(Assign(ms, us), k) == Get(ms, k)
    decreases |us|
  {
    if |us| > 0 {
      PutGetOther(ms, us[0].key, us[0].value, k);
      AssignKeeps(Put(ms, us[0].key, us[0].value), us[1..], k);
    }
  }

  /** Keys already present keep their order; new keys come after them. */
  lemma {:induction false} AssignExtendsKeys(ms: seq<Member>, us: seq<Member>)
    ensures Keys(ms) <= Keys(Assign(ms, us))
    decreases |us|
  {
    if |us| > 0 {
      PutKeys(ms, us[0].key, us[0].value);
      AssignExtendsKeys(Put(ms, us[0].key, us[0].value), us[1..]);
    }
  }
}
