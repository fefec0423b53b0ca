/** The untyped values that flow through the uniform table: numbers, the raw
    strings an `<input>` hands over, `undefined`, and plain objects whose
    properties keep their insertion order. */
module JsValue {

  datatype Scalar = Num(n: real) | Str(s: string) | Undef

  datatype Entry = Entry(key: string, val: Scalar)

  /** A property value: a primitive, or an object (arrays are objects keyed
      "0", "1", ...). */
  datatype Value = Prim(p: Scalar) | Obj(entries: seq<Entry>)

  const Undefined := Prim(Undef)

  function Keys(entries: seq<Entry>): (keys: seq<string>)
    ensures |keys| == |entries| && forall k :: 0 <= k < |entries| ==> keys[k] == entries[k].key
  {
    if entries == [] then [] else [entries[0].key] + Keys(entries[1..])
  }

  /** An object never holds two properties with the same key. */
  predicate UniqueKeys(entries: seq<Entry>)
  {
    forall a, b :: 0 <= a < b < |entries| ==> entries[a].key != entries[b].key
  }

  /** `o[key]`: the property's value, or `undefined`. */
  function Lookup(entries: seq<Entry>, key: string): (r: Scalar)
    ensures key !in Keys(entries) ==> r == Undef
    ensures UniqueKeys(entries) ==> forall k :: 0 <= k < |entries| && entries[k].key == key ==> r == entries[k].val
  {
    if entries == [] then Undef
    else if entries[0].key == key then entries[0].val
    else Lookup(entries[1..], key)
  }

  /** `value.key` on any value: a primitive has no such property. */
  function Get(v: Value, key: string): Scalar
  {
    if v.Obj? then Lookup(v.entries, key) else Undef
  }

  /** `Object.values(o)`: the values in key order. */
  function Values(entries: seq<Entry>): (vals: seq<Scalar>)
    ensures |vals| == |entries| && forall k :: 0 <= k < |entries| ==> vals[k] == entries[k].val
  {
    if entries == [] then [] else [entries[0].val] + Values(entries[1..])
  }

  /** Writes `key: val` into an object: in place when the key exists, at the
      end otherwise. */
  function Put(entries: seq<Entry>, key: string, val: Scalar): (r: seq<Entry>)
    ensures key in Keys(entries) ==> |r| == |entries|
    ensures key !in Keys(entries) ==> r == entries + [Entry(key, val)]
    ensures forall k :: 0 <= k < |entries| ==> r[k].key == entries[k].key
  {
    if entries == [] then [Entry(key, val)]
    else if entries[0].key == key then [Entry(key, val)] + entries[1..]
    else [entries[0]] + Put(entries[1..], key, val)
  }

  /** `{ ...a, ...b }` on objects: a's properties in order, overwritten by b's,
      then b's new keys in b's order. A primitive spreads nothing. */
  function Spread(a: Value, b: Value): seq<Entry>
  {
    var base := if a.Obj? then a.entries else [];
    var extra := if b.Obj? then b.entries else [];
    SpreadEntries(base, extra)
  }

  function SpreadEntries(base: seq<Entry>, extra: seq<Entry>): seq<Entry>
    decreases |extra|
  {
    if extra == [] then base
    else SpreadEntries(Put(base, extra[0].key, extra[0].val), extra[1..])
  }

  lemma {:induction false} PutLookup(entries: seq<Entry>, key: string, val: Scalar, other: string)
    ensures Lookup(Put(entries, key, val), key) == val
    ensures other != key ==> Lookup(Put(entries, key, val), other) == Lookup(entries, other)
  {
    if entries != [] && entries[0].key != key {
      PutLookup(entries[1..], key, val, other);
      assert Put(entries, key, val)[1..] == Put(entries[1..], key, val);
    }
  }

  /** Spreading keeps the first object's keys in place and adds new ones after. */
  lemma {:induction false} SpreadKeepsKeys(base: seq<Entry>, extra: seq<Entry>)
    ensures |SpreadEntries(base, extra)| >= |base|
    ensures forall k :: 0 <= k < |base| ==> SpreadEntries(base, extra)[k].key == base[k].key
    decreases |extra|
  {
    if extra != [] {
      var next := Put(base, extra[0].key, extra[0].val);
      SpreadKeepsKeys(next, extra[1..]);
    }
  }

  /** `{ ...a, ...b }[key]` is b's value where b has the key, a's otherwise. */
  lemma {:induction false} SpreadLookup(base: seq<Entry>, extra: seq<Entry>, key: string)
    requires UniqueKeys(extra)
    ensures key in Keys(extra) ==> Lookup(SpreadEntries(base, extra), key) == Lookup(extra, key)
    ensures key !in Keys(extra) ==> Lookup(SpreadEntries(base, extra), key) == Lookup(base, key)
    decreases |extra|
  {
    if extra != [] {
      var next := Put(base, extra[0].key, extra[0].val);
      assert UniqueKeys(extra[1..]);
      SpreadLookup(next, extra[1..], key);
      PutLookup(base, extra[0].key, extra[0].val, key);
      assert Keys(extra) == [extra[0].key] + Keys(extra[1..]);
      if key == extra[0].key {
        assert key !in Keys(extra[1..]);
      }
    }
  }

  /** JavaScript truthiness of a property value. */
  predicate Truthy(s: Scalar)
  {
    match s
    case Num(n) => n != 0.0
    case Str(t) => t != ""
    case Undef => false
  }

  /** `a || b`. */
  function Or(a: Scalar, b: Scalar): (r: Scalar)
    ensures Truthy(a) ==> r == a
    ensures !Truthy(a) ==> r == b
  {
    if Truthy(a) then a else b
  }

  /** Template-literal interpolation `${s}`; number formatting is left to `show`. */
  function Show(s: Scalar, show: real -> string): string
  {
    match s
    case Num(n) => show(n)
    case Str(t) => t
    case Undef => "undefined"
  }
}
