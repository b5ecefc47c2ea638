/** The few pieces of PHP semantics that the plugin's rules depend on:
    `empty()` on strings, the loose comparison `== 0` on a stock quantity,
    `isset()`, and ordered associative arrays with unique keys. */
module Php {

  datatype Option<+T> = None | Some(value: T)

  /** A PHP value, as far as the plugin tells values apart: `null`, a string,
      or any other value (number, array, object), told apart by an opaque tag. */
  datatype Mixed = Null | Str(s: string) | Other(tag: nat)

  /** `empty($s)` for a string `$s`: true for "" and for "0". */
  predicate IsEmpty(s: string)
  {
    s == "" || s == "0"
  }

  /** `$q == 0` for a stock quantity that is an int or null: loose equality
      makes `null == 0` true. */
  predicate LooselyZero(q: Option<int>)
  {
    q.None? || q.value == 0
  }

  /** One key/value pair of an associative array. */
  datatype Entry<V> = Entry(key: string, value: V)

  predicate DistinctKeys<V>(a: seq<Entry<V>>)
  {
    forall i, j :: 0 <= i < j < |a| ==> a[i].key != a[j].key
  }

  /** A PHP array with string keys: insertion-ordered, each key at most once. */
  type PhpArray<V> = a: seq<Entry<V>> | DistinctKeys(a) witness []

  function Keys<V>(a: seq<Entry<V>>): set<string>
  {
    set i | 0 <= i < |a| :: a[i].key
  }

  lemma KeysCons<V>(a: seq<Entry<V>>)
    requires a != []
    ensures Keys(a) == {a[0].key} + Keys(a[1..])
  {
    var tail := a[1..];
    forall k | k in Keys(a) ensures k in {a[0].key} + Keys(tail) {
      var i :| 0 <= i < |a| && a[i].key == k;
      if i > 0 { assert tail[i - 1].key == k; }
    }
    forall k | k in Keys(tail) ensures k in Keys(a) {
      var i :| 0 <= i < |tail| && tail[i].key == k;
      assert a[i + 1].key == k;
    }
  }

  lemma DistinctCons<V>(e: Entry<V>, rest: seq<Entry<V>>)
    ensures DistinctKeys([e] + rest) <==> e.key !in Keys(rest) && DistinctKeys(rest)
  {
    var a := [e] + rest;
    assert a[1..] == rest;
    KeysCons(a);
    if DistinctKeys(a) {
      forall i, j | 0 <= i < j < |rest| ensures rest[i].key != rest[j].key {
        assert a[i + 1] == rest[i] && a[j + 1] == rest[j];
      }
      forall i | 0 <= i < |rest| ensures rest[i].key != e.key {
        assert a[i + 1] == rest[i];
      }
    }
    if e.key !in Keys(rest) && DistinctKeys(rest) {
      forall i, j | 0 <= i < j < |a| ensures a[i].key != a[j].key {
        if i == 0 {
          assert a[j].key == rest[j - 1].key;
        } else {
          assert a[i] == rest[i - 1] && a[j] == rest[j - 1];
        }
      }
    }
  }

  /** `$a[$k] ?? null`: the value stored under `k`, if any. */
  function Get<V>(a: seq<Entry<V>>, k: string): (r: Option<V>)
    ensures r.Some? <==> k in Keys(a)
    ensures r.Some? ==> Entry(k, r.value) in a
    decreases |a|
  {
    if a == [] then None
    else
      KeysCons(a);
      if a[0].key == k then Some(a[0].value) else Get(a[1..], k)
  }

  /** `isset($a[$k])`: the key is present and its value is not `null`. */
  predicate Isset(a: seq<Entry<Mixed>>, k: string)
  {
    Get(a, k).Some? && Get(a, k).value != Null
  }

  /** The assignment `$a[$k] = $v`: replaces the value in place when `k` is
      already a key, otherwise appends the pair at the end. */
  function Put<V>(a: PhpArray<V>, k: string, v: V): (r: PhpArray<V>)
    ensures Keys(r) == Keys(a) + {k}
    ensures |r| == if k in Keys(a) then |a| else |a| + 1
    decreases |a|
  {
    if a == [] then
      KeysCons([Entry(k, v)]);
      [Entry(k, v)]
    else
      DistinctCons(a[0], a[1..]);
      assert [a[0]] + a[1..] == a;
      KeysCons(a);
      if a[0].key == k then
        DistinctCons(Entry(k, v), a[1..]);
        KeysCons([Entry(k, v)] + a[1..]);
        assert ([Entry(k, v)] + a[1..])[1..] == a[1..];
        [Entry(k, v)] + a[1..]
      else
        var rest := Put(a[1..], k, v);
        DistinctCons(a[0], rest);
        KeysCons([a[0]] + rest);
        assert ([a[0]] + rest)[1..] == rest;
        [a[0]] + rest
  }

  /** After `$a[$k] = $v`, reading `$a[$k]` gives `v`. */
  lemma {:induction false} PutGet<V>(a: PhpArray<V>, k: string, v: V)
    ensures Get(Put(a, k, v), k) == Some(v)
    decreases |a|
  {
    if a != [] && a[0].key != k {
      DistinctCons(a[0], a[1..]);
      assert [a[0]] + a[1..] == a;
      PutGet(a[1..], k, v);
      var r := Put(a, k, v);
      assert r[1..] == Put(a[1..], k, v);
    }
  }

  /** `$a[$k] = $v` leaves every other key's value as it was. */
  lemma {:induction false} PutGetOther<V>(a: PhpArray<V>, k: string, v: V, other: string)
    requires other != k
    ensures Get(Put(a, k, v), other) == Get(a, other)
    decreases |a|
  {
    if a != [] {
      DistinctCons(a[0], a[1..]);
      assert [a[0]] + a[1..] == a;
      var r := Put(a, k, v);
      if a[0].key == k {
        assert r[1..] == a[1..];
      } else {
        PutGetOther(a[1..], k, v, other);
        assert r[1..] == Put(a[1..], k, v);
      }
    }
  }

  /** A new key is appended after all existing entries, which keep their order. */
  lemma {:induction false} PutNewAppends<V>(a: PhpArray<V>, k: string, v: V)
    requires k !in Keys(a)
    ensures Put(a, k, v) == a + [Entry(k, v)]
    decreases |a|
  {
    if a != [] {
      DistinctCons(a[0], a[1..]);
      assert [a[0]] + a[1..] == a;
      KeysCons(a);
      PutNewAppends(a[1..], k, v);
      assert [a[0]] + (a[1..] + [Entry(k, v)]) == a + [Entry(k, v)];
    }
  }

  /** An existing key keeps its position: only the entry holding `k` changes. */
  lemma {:induction false} PutExistingInPlace<V>(a: PhpArray<V>, k: string, v: V, i: nat)
    requires k in Keys(a) && i < |a|
    ensures |Put(a, k, v)| == |a|
    ensures Put(a, k, v)[i] == if a[i].key == k then Entry(k, v) else a[i]
    decreases |a|
  {
    DistinctCons(a[0], a[1..]);
    assert [a[0]] + a[1..] == a;
    KeysCons(a);
    var r := Put(a, k, v);
    if a[0].key != k {
      if i > 0 {
        PutExistingInPlace(a[1..], k, v, i - 1);
        assert r[i] == Put(a[1..], k, v)[i - 1];
      }
    } else if i > 0 {
      assert a[i].key != k;
    }
  }
}
