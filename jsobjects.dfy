/** Plain JavaScript objects used as dictionaries: own properties kept in
    insertion order (the order Object.keys, Object.values and
    Object.entries report for keys that are not array indices), and the
    names every object literal inherits from Object.prototype. */
module JsObjects {
  import opened Seqs

  /** Property names an object literal inherits from Object.prototype
      (section 20.1.3 of ECMAScript 2023 and its Annex B.2.2). Reading one of
      them from an object that lacks an own property of that name yields a
      function or an object, which is truthy. */
  const InheritedNames: set<string> := {
    "constructor", "hasOwnProperty", "isPrototypeOf", "propertyIsEnumerable",
    "toLocaleString", "toString", "valueOf", "__proto__", "__defineGetter__",
    "__defineSetter__", "__lookupGetter__", "__lookupSetter__"
  }

  /** An object's own properties: `keys` in insertion order, `values` by key. */
  datatype Dict<V> = Dict(keys: seq<string>, values: map<string, V>)

  predicate WellFormed<V>(d: Dict<V>) {
    NoDup(d.keys) && d.values.Keys == set k | k in d.keys
  }

  function EmptyDict<V>(): (d: Dict<V>)
    ensures WellFormed(d)
  {
    Dict([], map[])
  }

  /** `obj[k] = v`: a new key goes to the end, an existing one keeps its place. */
  function Put<V>(d: Dict<V>, k: string, v: V): (r: Dict<V>)
    requires WellFormed(d)
    ensures WellFormed(r)
    ensures r.values == d.values[k := v]
    ensures r.keys == if k in d.values then d.keys else d.keys + [k]
  {
    Dict(if k in d.values then d.keys else d.keys + [k], d.values[k := v])
  }

  /** Object.values. */
  function Values<V>(d: Dict<V>): (r: seq<V>)
    requires WellFormed(d)
    ensures |r| == |d.keys| && forall i :: 0 <= i < |d.keys| ==> r[i] == d.values[d.keys[i]]
    ensures forall k :: k in d.keys ==> d.values[k] in r
  {
    seq(|d.keys|, i requires 0 <= i < |d.keys| => d.values[d.keys[i]])
  }

  /** The values are exactly the values stored under the keys. */
  lemma ValuesMembers<V>(d: Dict<V>, v: V)
    requires WellFormed(d)
    ensures v in Values(d) <==> exists k :: k in d.keys && d.values[k] == v
  {
    if v in Values(d) {
      var i :| 0 <= i < |Values(d)| && Values(d)[i] == v;
      assert d.keys[i] in d.keys;
    }
  }
}
