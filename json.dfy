/**
 * JSON values as the tool layer sees them. An object is the ordered list of its
 * fields, as a Python dict keeps insertion order: deleting a key keeps the order
 * of the others, and assigning to an existing key keeps its position. A Python dict
 * holds each key once; the operations here do not need that, but only objects with
 * distinct keys stand for dicts: `Get` reads the first field of a key, while `Delete`
 * and `Replace` act on every field of it.
 */
module Json {
  import opened Wrappers

  datatype Json =
    | JNull
    | JBool(b: bool)
    | JInt(n: int)
    | JStr(s: string)
    | JArr(items: seq<Json>)
    | JObj(fields: seq<Field>)

  datatype Field = Field(key: string, value: Json)

  /** The keys of an object, in order. */
  function Keys(fields: seq<Field>): (ks: seq<string>)
    ensures |ks| == |fields|
    ensures forall i :: 0 <= i < |fields| ==> ks[i] == fields[i].key
  {
    seq(|fields|, i requires 0 <= i < |fields| => fields[i].key)
  }

  predicate Has(fields: seq<Field>, key: string) {
    exists i :: 0 <= i < |fields| && fields[i].key == key
  }

  /** `d.get(key)`: the value of the first field named `key`. */
  function Get(fields: seq<Field>, key: string): (r: Option<Json>)
    ensures r.Some? <==> Has(fields, key)
    ensures r.Some? ==> exists i :: 0 <= i < |fields| && fields[i] == Field(key, r.value)
    decreases |fields|
  {
    if fields == [] then None
    else if fields[0].key == key then Some(fields[0].value)
    else
      assert forall i :: 1 <= i < |fields| ==> fields[i] == fields[1..][i - 1];
      Get(fields[1..], key)
  }

  /** The keys in `ks` other than `key`, in their order. */
  function KeysWithout(ks: seq<string>, key: string): seq<string>
    decreases |ks|
  {
    if ks == [] then [] else (if ks[0] == key then [] else [ks[0]]) + KeysWithout(ks[1..], key)
  }

  /** `del d[key]`: drops the fields named `key` and keeps the order of the rest (`DeleteKeepsOrder`). */
  function Delete(fields: seq<Field>, key: string): (r: seq<Field>)
    ensures !Has(r, key)
    ensures forall k :: k != key ==> Get(r, k) == Get(fields, k)
    ensures !Has(fields, key) ==> r == fields
    decreases |fields|
  {
    if fields == [] then []
    else
      var rest := Delete(fields[1..], key);
      assert forall i :: 1 <= i < |fields| ==> fields[i] == fields[1..][i - 1];
      assert fields == [fields[0]] + fields[1..];
      if fields[0].key == key then rest else [fields[0]] + rest
  }

  /** The remaining keys of `del d[key]` are the old ones without `key`, in their old order. */
  lemma {:induction false} DeleteKeepsOrder(fields: seq<Field>, key: string)
    ensures Keys(Delete(fields, key)) == KeysWithout(Keys(fields), key)
    decreases |fields|
  {
    if fields != [] {
      DeleteKeepsOrder(fields[1..], key);
      assert Keys(fields)[1..] == Keys(fields[1..]);
      var rest := Delete(fields[1..], key);
      if fields[0].key != key {
        assert Keys([fields[0]] + rest) == [fields[0].key] + Keys(rest);
      }
    }
  }

  /** `d[key] = value`: overwrites the value in place when `key` is present, appends it otherwise. */
  function Put(fields: seq<Field>, key: string, value: Json): (r: seq<Field>)
    ensures Get(r, key) == Some(value)
    ensures forall k :: k != key ==> Get(r, k) == Get(fields, k)
    ensures Keys(r) == if Has(fields, key) then Keys(fields) else Keys(fields) + [key]
  {
    if Has(fields, key) then Replace(fields, key, value) else
      var r := fields + [Field(key, value)];
      assert forall i :: 0 <= i < |fields| ==> r[i] == fields[i];
      AppendGet(fields, Field(key, value), key);
      forall k | k != key ensures Get(r, k) == Get(fields, k) {
        AppendGet(fields, Field(key, value), k);
      }
      r
  }

  function Replace(fields: seq<Field>, key: string, value: Json): (r: seq<Field>)
    requires Has(fields, key)
    ensures Get(r, key) == Some(value)
    ensures forall k :: k != key ==> Get(r, k) == Get(fields, k)
    ensures Keys(r) == Keys(fields)
  {
    var r := seq(|fields|, i requires 0 <= i < |fields| => if fields[i].key == key then Field(key, value) else fields[i]);
    ReplaceGet(fields, key, value, r);
    r
  }

  lemma {:induction false} ReplaceGet(fields: seq<Field>, key: string, value: Json, r: seq<Field>)
    requires |r| == |fields|
    requires forall i :: 0 <= i < |fields| ==> r[i] == if fields[i].key == key then Field(key, value) else fields[i]
    ensures Has(fields, key) ==> Get(r, key) == Some(value)
    ensures forall k :: k != key ==> Get(r, k) == Get(fields, k)
    decreases |fields|
  {
    if fields != [] {
      ReplaceGet(fields[1..], key, value, r[1..]);
    }
  }

  lemma {:induction false} AppendGet(fields: seq<Field>, f: Field, k: string)
    ensures Get(fields + [f], k) == if Has(fields, k) then Get(fields, k) else if f.key == k then Some(f.value) else None
    decreases |fields|
  {
    if fields == [] {
      assert fields + [f] == [f];
    } else {
      assert (fields + [f])[1..] == fields[1..] + [f];
      AppendGet(fields[1..], f, k);
    }
  }

  /** Writing the value a key already has changes nothing. */
  lemma {:induction false} PutSame(fields: seq<Field>, key: string, value: Json)
    ensures Put(Put(fields, key, value), key, value) == Put(fields, key, value)
  {
    var once := Put(fields, key, value);
    assert Has(once, key);
    var twice := Replace(once, key, value);
    assert |twice| == |once|;
    forall i | 0 <= i < |once| ensures twice[i] == once[i] {
      if once[i].key == key {
        PutValueAt(fields, key, value, i);
      }
    }
  }

  lemma PutValueAt(fields: seq<Field>, key: string, value: Json, i: nat)
    requires i < |Put(fields, key, value)| && Put(fields, key, value)[i].key == key
    ensures Put(fields, key, value)[i].value == value
  {
    if !Has(fields, key) {
      var r := Put(fields, key, value);
      assert Keys(r)[i] == key;
    }
  }
}
