/** Decoded JSON documents as the connector sees them after `response.json()`.
    A JSON object is a Python dict: an ordered list of entries whose keys are
    distinct, in insertion order. */
module JsonData {

  datatype Option<+T> = None | Some(value: T)

  datatype Result<+T, +E> = Success(value: T) | Failure(error: E) {
    predicate IsFailure() { Failure? }
    function PropagateFailure<U>(): Result<U, E>
      requires Failure?
    {
      Failure(error)
    }
    function Extract(): T
      requires Success?
    {
      value
    }
  }

  /** Floating-point numbers are not modelled: numbers are integers. */
  datatype Json =
    | JNull
    | JBool(b: bool)
    | JInt(n: int)
    | JStr(s: string)
    | JArr(items: seq<Json>)
    | JObj(fields: Fields)

  type Fields = seq<(string, Json)>

  /** The keys of a dict, in insertion order. */
  function Keys(fields: Fields): (ks: seq<string>)
    ensures |ks| == |fields|
    ensures forall i :: 0 <= i < |fields| ==> ks[i] == fields[i].0
  {
    if fields == [] then [] else [fields[0].0] + Keys(fields[1..])
  }

  predicate DistinctKeys(fields: Fields) {
    forall i, j :: 0 <= i < j < |fields| ==> fields[i].0 != fields[j].0
  }

  /** Every object, at every depth, has distinct keys: what a Python dict can hold. */
  predicate WellFormed(j: Json)
    decreases j
  {
    match j
    case JArr(items) => forall i :: 0 <= i < |items| ==> WellFormed(items[i])
    case JObj(fields) => DistinctKeys(fields) && forall i :: 0 <= i < |fields| ==> WellFormed(fields[i].1)
    case _ => true
  }

  /** `d[key]` when present: the entry stored under `key`. */
  function Lookup(fields: Fields, key: string): (r: Option<Json>)
    ensures r.None? <==> key !in Keys(fields)
    ensures r.Some? ==> exists i :: 0 <= i < |fields| && fields[i] == (key, r.value)
  {
    if fields == [] then None
    else if fields[0].0 == key then Some(fields[0].1)
    else Lookup(fields[1..], key)
  }

  /** Python's `d.get(key, default)` on a dict. */
  function Get(d: Json, key: string, default: Json): Json
    requires d.JObj?
  {
    match Lookup(d.fields, key)
    case Some(v) => v
    case None => default
  }

  /** Python's `d[key] = v`: an existing key keeps its place, a new key goes last. */
  function Set(fields: Fields, key: string, v: Json): (r: Fields)
  {
    if fields == [] then [(key, v)]
    else if fields[0].0 == key then [(key, v)] + fields[1..]
    else [fields[0]] + Set(fields[1..], key, v)
  }

  lemma KeysAppend(fields: Fields, e: (string, Json))
    ensures Keys(fields + [e]) == Keys(fields) + [e.0]
  {
    assert |Keys(fields + [e])| == |Keys(fields) + [e.0]|;
    forall i | 0 <= i < |fields| + 1 ensures Keys(fields + [e])[i] == (Keys(fields) + [e.0])[i] {
      assert (fields + [e])[i] == if i < |fields| then fields[i] else e;
    }
  }

  lemma {:induction false} LookupAt(fields: Fields, i: nat)
    requires DistinctKeys(fields) && i < |fields|
    ensures Lookup(fields, fields[i].0) == Some(fields[i].1)
  {
    if i > 0 {
      assert fields[0].0 != fields[i].0;
      LookupAt(fields[1..], i - 1);
    }
  }

  /** A value stored in a well-formed object is itself well formed. */
  lemma LookupWellFormed(fields: Fields, key: string)
    requires WellFormed(JObj(fields))
    ensures Lookup(fields, key).Some? ==> WellFormed(Lookup(fields, key).value)
  {
  }

  /** Dropping the first entry keeps a missing key missing. */
  lemma KeysTail(fields: Fields, key: string)
    requires fields != [] && key !in Keys(fields)
    ensures fields[0].0 != key && key !in Keys(fields[1..])
  {
    assert Keys(fields) == [fields[0].0] + Keys(fields[1..]);
  }

  /** After appending a fresh key, reading that key gives the appended value. */
  lemma {:induction false} LookupLast(fields: Fields, key: string, v: Json)
    requires key !in Keys(fields)
    ensures Lookup(fields + [(key, v)], key) == Some(v)
  {
    if fields != [] {
      KeysTail(fields, key);
      assert (fields + [(key, v)])[1..] == fields[1..] + [(key, v)];
      LookupLast(fields[1..], key, v);
    }
  }

  /** Assigning a key the dict does not hold appends the entry. */
  lemma {:induction false} SetAbsentAppends(fields: Fields, key: string, v: Json)
    requires key !in Keys(fields)
    ensures Set(fields, key, v) == fields + [(key, v)]
  {
    if fields != [] {
      KeysTail(fields, key);
      SetAbsentAppends(fields[1..], key, v);
      assert [fields[0]] + (fields[1..] + [(key, v)]) == fields + [(key, v)];
    }
  }

  /** Assigning the key that was added last replaces its value in place. */
  lemma {:induction false} SetLastReplaces(pre: Fields, key: string, old_v: Json, v: Json)
    requires key !in Keys(pre)
    ensures Set(pre + [(key, old_v)], key, v) == pre + [(key, v)]
  {
    if pre == [] {
      assert pre + [(key, old_v)] == [(key, old_v)];
    } else {
      KeysTail(pre, key);
      var whole := pre + [(key, old_v)];
      assert whole[0] == pre[0] && whole[0].0 != key;
      assert whole[1..] == pre[1..] + [(key, old_v)];
      SetLastReplaces(pre[1..], key, old_v, v);
      assert [pre[0]] + (pre[1..] + [(key, v)]) == pre + [(key, v)];
    }
  }

  /** `d[key] = v` on a key `d` does not hold, then reading it and assigning it
      again: the entry goes last, reads back as `v`, and is replaced in place. */
  lemma AssignFresh(fields: Fields, key: string, v: Json)
    requires key !in Keys(fields)
    ensures Set(fields, key, v) == fields + [(key, v)]
    ensures Lookup(fields + [(key, v)], key) == Some(v)
    ensures forall w :: Set(fields + [(key, v)], key, w) == fields + [(key, w)]
  {
    SetAbsentAppends(fields, key, v);
    LookupLast(fields, key, v);
    forall w ensures Set(fields + [(key, v)], key, w) == fields + [(key, w)] {
      SetLastReplaces(fields, key, v, w);
    }
  }
}
