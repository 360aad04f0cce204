/** Plain JavaScript objects whose own enumerable properties are string-valued,
    and the two object operations the logger relies on: property read (`o.k`)
    and `Object.assign`. An object keeps its keys in property order (the order
    `JSON.stringify` and `Object.assign` visit them) beside a map from key to
    value. */
module Records {
  import opened Wrappers

  /** No key occurs twice. */
  predicate Distinct(ks: seq<string>) {
    ks == [] || (ks[0] !in ks[1..] && Distinct(ks[1..]))
  }

  /** Appending a fresh key keeps a key list distinct. */
  lemma {:induction false} DistinctSnoc(ks: seq<string>, k: string)
    requires Distinct(ks) && k !in ks
    ensures Distinct(ks + [k])
  {
    if ks != [] {
      assert (ks + [k])[1..] == ks[1..] + [k];
      DistinctSnoc(ks[1..], k);
    }
  }

  datatype Object = Object(keys: seq<string>, values: map<string, string>) {
    /** What every JavaScript object guarantees: each own key is listed once,
        and exactly the listed keys carry a value. */
    predicate Valid() {
      && Distinct(keys)
      && (forall k :: k in values ==> k in keys)
      && (forall k :: k in keys ==> k in values)
    }
  }

  type JsObject = o: Object | o.Valid() witness Object([], map[])

  /** The empty object literal `{}`. */
  const Empty: JsObject := Object([], map[])

  /** A one-property object literal `{ k: v }`. */
  function Single(k: string, v: string): (o: JsObject)
    ensures o.keys == [k]
    ensures Get(o, k) == Some(v)
  {
    Put(Empty, k, v)
  }

  /** Property read `o[k]`: the value stored under `k`, or `None` (JavaScript's
      `undefined`) when `o` has no own property `k`. */
  function Get(o: JsObject, k: string): (v: Option<string>)
    ensures v.Some? <==> k in o.keys
  {
    if k in o.values then Some(o.values[k]) else None
  }

  /** An object with three keys is determined by what it holds under them. */
  lemma ValuesOfThree(o: JsObject, k1: string, k2: string, k3: string, v1: string, v2: string, v3: string)
    requires o.keys == [k1, k2, k3]
    requires Get(o, k1) == Some(v1) && Get(o, k2) == Some(v2) && Get(o, k3) == Some(v3)
    ensures o.values == map[k1 := v1, k2 := v2, k3 := v3]
  {
  }

  lemma ValuesOfTwo(o: JsObject, k1: string, k2: string, v1: string, v2: string)
    requires o.keys == [k1, k2]
    requires Get(o, k1) == Some(v1) && Get(o, k2) == Some(v2)
    ensures o.values == map[k1 := v1, k2 := v2]
  {
  }

  /** Property write `o[k] = v` on an ordinary object: an existing property
      keeps its place and takes the new value; a new property goes last. */
  function Put(o: JsObject, k: string, v: string): (r: JsObject)
    ensures k in o.keys ==> r.keys == o.keys
    ensures k !in o.keys ==> r.keys == o.keys + [k]
    ensures Get(r, k) == Some(v)
    ensures forall j :: j != k ==> Get(r, j) == Get(o, j)
  {
    if k in o.keys then Object(o.keys, o.values[k := v])
    else DistinctSnoc(o.keys, k); Object(o.keys + [k], o.values[k := v])
  }

  /** Writes the properties named by `ks`, in order, with their values from
      `from`, into `target`: the loop inside `Object.assign`. */
  function CopyInto(target: JsObject, ks: seq<string>, from: map<string, string>): JsObject
    requires forall k :: k in ks ==> k in from
    decreases |ks|
  {
    if ks == [] then target
    else CopyInto(Put(target, ks[0], from[ks[0]]), ks[1..], from)
  }

  /** `Object.assign(target, source)`: every own property of `source`, in
      property order, is written into `target`; the updated target is the
      result. */
  function Assign(target: JsObject, source: JsObject): JsObject {
    CopyInto(target, source.keys, source.values)
  }

  /** The keys of `ks` that are not in `drop`, in their order in `ks`. */
  function Without(ks: seq<string>, drop: seq<string>): (r: seq<string>)
  {
    if ks == [] then []
    else (if ks[0] in drop then [] else [ks[0]]) + Without(ks[1..], drop)
  }

  /** `Without` keeps exactly the keys of `ks` that are not dropped. */
  lemma {:induction false} WithoutMembers(ks: seq<string>, drop: seq<string>, k: string)
    ensures k in Without(ks, drop) <==> k in ks && k !in drop
  {
    if ks != [] {
      WithoutMembers(ks[1..], drop, k);
      assert ks == [ks[0]] + ks[1..];
    }
  }

  lemma {:induction false} WithoutIgnoresAbsent(ks: seq<string>, drop: seq<string>, x: string)
    requires x !in ks
    ensures Without(ks, drop + [x]) == Without(ks, drop)
  {
    if ks != [] {
      WithoutIgnoresAbsent(ks[1..], drop, x);
    }
  }

  /** After copying, a key read gives the copied value when the key was
      copied ("later source wins") and the target's value otherwise. */
  lemma {:induction false} CopyIntoGet(target: JsObject, ks: seq<string>, from: map<string, string>, k: string)
    requires forall k :: k in ks ==> k in from
    ensures Get(CopyInto(target, ks, from), k)
         == if k in ks then Some(from[k]) else Get(target, k)
    decreases |ks|
  {
    if ks != [] {
      CopyIntoGet(Put(target, ks[0], from[ks[0]]), ks[1..], from, k);
    }
  }

  /** Copying keeps the target's keys in place and appends the copied keys
      the target lacked, in copy order. */
  lemma {:induction false} CopyIntoKeys(target: JsObject, ks: seq<string>, from: map<string, string>)
    requires forall k :: k in ks ==> k in from
    requires Distinct(ks)
    ensures CopyInto(target, ks, from).keys == target.keys + Without(ks, target.keys)
    decreases |ks|
  {
    if ks != [] {
      var t' := Put(target, ks[0], from[ks[0]]);
      CopyIntoKeys(t', ks[1..], from);
      WriteThenCopyKeys(target.keys, ks, t'.keys);
    }
  }

  /** Writing the first key and then copying the rest produces the same key
      order as the closed form of `CopyIntoKeys`. */
  lemma WriteThenCopyKeys(before: seq<string>, ks: seq<string>, after: seq<string>)
    requires ks != [] && ks[0] !in ks[1..]
    requires ks[0] in before ==> after == before
    requires ks[0] !in before ==> after == before + [ks[0]]
    ensures after + Without(ks[1..], after) == before + Without(ks, before)
  {
    var k, rest := ks[0], ks[1..];
    WithoutCons(ks, before);
    if k !in before {
      var w := Without(rest, before);
      WithoutIgnoresAbsent(rest, before, k);
      assert Without(ks, before) == [k] + w;
      assert (before + [k]) + w == before + ([k] + w);
    }
  }

  /** One unfolding of `Without`. */
  lemma WithoutCons(ks: seq<string>, drop: seq<string>)
    requires ks != []
    ensures Without(ks, drop) == (if ks[0] in drop then [] else [ks[0]]) + Without(ks[1..], drop)
  {
  }

  /** `Object.assign` read-back: a key of the source reads as the source's
      value, any other key as the target's. */
  lemma AssignGet(target: JsObject, source: JsObject, k: string)
    ensures Get(Assign(target, source), k)
         == if k in source.keys then Get(source, k) else Get(target, k)
  {
    CopyIntoGet(target, source.keys, source.values, k);
  }

  /** `Object.assign` key order: the target's keys keep their places and the
      source's new keys follow, in the source's order. */
  lemma AssignKeys(target: JsObject, source: JsObject)
    ensures Assign(target, source).keys == target.keys + Without(source.keys, target.keys)
  {
    CopyIntoKeys(target, source.keys, source.values);
  }
}
