/** What survives `json.dumps(value, default=str)` into a `jsonb` column and back. */
module Json {
  import opened Prelude

  /** Python values a dispatch may return.  `Other` stands for any object JSON has no
      form for, known here by its `str()`. */
  datatype Value =
    | Null
    | Bool(b: bool)
    | Int(n: int)
    | Text(s: string)
    | List(items: seq<Value>)
    | Tuple(items: seq<Value>)
    | Dict(fields: map<string, Value>)
    | Other(str: string)

  /** The value read back: tuples come back as lists, other objects as their text. */
  function Stored(v: Value): Value {
    match v
    case List(items) => List(seq(|items|, i requires 0 <= i < |items| => Stored(items[i])))
    case Tuple(items) => List(seq(|items|, i requires 0 <= i < |items| => Stored(items[i])))
    case Dict(fields) => Dict(map k | k in fields :: Stored(fields[k]))
    case Other(str) => Text(str)
    case _ => v
  }

  /** Built from JSON's own types only. */
  predicate Native(v: Value) {
    match v
    case List(items) => forall i :: 0 <= i < |items| ==> Native(items[i])
    case Dict(fields) => forall k :: k in fields ==> Native(fields[k])
    case Tuple(_) => false
    case Other(_) => false
    case _ => true
  }

  /** `jsonb` refuses text with a U+0000 in it, in keys as in values. */
  predicate Storable(v: Value) {
    match v
    case Text(s) => '\0' !in s
    case Other(str) => '\0' !in str
    case List(items) => forall i :: 0 <= i < |items| ==> Storable(items[i])
    case Tuple(items) => forall i :: 0 <= i < |items| ==> Storable(items[i])
    case Dict(fields) => forall k :: k in fields ==> '\0' !in k && Storable(fields[k])
    case _ => true
  }

  /** What a column holds after the value was written to it, if the write succeeds. */
  function ReadBack(v: Value): Option<Value> {
    if Storable(v) then Some(Stored(v)) else None
  }

  // ---- what comes back, leaf by leaf ----

  /** `w` is what JSON text makes of `v`: the same scalars and keys, lists for lists and
      tuples, item by item, and the text of anything else. */
  predicate ComesBackAs(v: Value, w: Value) {
    match v
    case Other(str) => w == Text(str)
    case List(items) =>
      w.List? && |w.items| == |items| && forall i :: 0 <= i < |items| ==> ComesBackAs(items[i], w.items[i])
    case Tuple(items) =>
      w.List? && |w.items| == |items| && forall i :: 0 <= i < |items| ==> ComesBackAs(items[i], w.items[i])
    case Dict(fields) =>
      w.Dict? && w.fields.Keys == fields.Keys && forall k :: k in fields ==> ComesBackAs(fields[k], w.fields[k])
    case _ => w == v
  }

  /** The text occurs in the value: as a key, as a string or as some object's text. */
  predicate Occurs(s: string, v: Value) {
    match v
    case Text(t) => s == t
    case Other(str) => s == str
    case List(items) => exists i :: 0 <= i < |items| && Occurs(s, items[i])
    case Tuple(items) => exists i :: 0 <= i < |items| && Occurs(s, items[i])
    case Dict(fields) => exists k :: k in fields && (s == k || Occurs(s, fields[k]))
    case _ => false
  }

  /** Exactly one value comes back, leaf by leaf the one that was written, unless some text
      in it has a U+0000; then the write is refused. */
  lemma ReadBackTells(v: Value, w: Value)
    ensures ReadBack(v) == Some(w) <==> ComesBackAs(v, w) && forall s :: Occurs(s, v) ==> '\0' !in s
    ensures ReadBack(v).None? <==> exists s :: Occurs(s, v) && '\0' in s
  {
    StorableIffNoNul(v);
    StoredIsOnly(v, w);
  }

  lemma {:induction false} StoredIsOnly(v: Value, w: Value)
    ensures ComesBackAs(v, w) <==> w == Stored(v)
    decreases v
  {
    match v
    case List(items) => ItemsOnly(v, items, w);
    case Tuple(items) => ItemsOnly(v, items, w);
    case Dict(fields) =>
      if w.Dict? && w.fields.Keys == fields.Keys {
        forall k | k in fields ensures ComesBackAs(fields[k], w.fields[k]) <==> w.fields[k] == Stored(fields[k]) {
          StoredIsOnly(fields[k], w.fields[k]);
        }
        assert w == Stored(v) <==> forall k :: k in fields ==> w.fields[k] == Stored(v).fields[k];
      }
    case _ =>
  }

  lemma {:induction false} ItemsOnly(v: Value, items: seq<Value>, w: Value)
    requires v == List(items) || v == Tuple(items)
    ensures ComesBackAs(v, w) <==> w == Stored(v)
    decreases v, 0
  {
    if w.List? && |w.items| == |items| {
      forall i | 0 <= i < |items| ensures ComesBackAs(items[i], w.items[i]) <==> w.items[i] == Stored(items[i]) {
        StoredIsOnly(items[i], w.items[i]);
      }
      assert w == Stored(v) <==> forall i :: 0 <= i < |items| ==> w.items[i] == Stored(v).items[i];
    }
  }

  lemma {:induction false} StorableIffNoNul(v: Value)
    ensures Storable(v) <==> forall s :: Occurs(s, v) ==> '\0' !in s
  {
    match v
    case Text(s) => assert Occurs(s, v);
    case Other(str) => assert Occurs(str, v);
    case List(items) => ItemsNoNul(v, items);
    case Tuple(items) => ItemsNoNul(v, items);
    case Dict(fields) =>
      forall k | k in fields ensures Storable(fields[k]) <==> forall s :: Occurs(s, fields[k]) ==> '\0' !in s {
        StorableIffNoNul(fields[k]);
      }
      forall k | k in fields ensures Occurs(k, v) && forall s :: Occurs(s, fields[k]) ==> Occurs(s, v) { }
    case _ =>
  }

  lemma {:induction false} ItemsNoNul(v: Value, items: seq<Value>)
    requires v == List(items) || v == Tuple(items)
    ensures Storable(v) <==> forall s :: Occurs(s, v) ==> '\0' !in s
    decreases v, 0
  {
    forall i | 0 <= i < |items| ensures Storable(items[i]) <==> forall s :: Occurs(s, items[i]) ==> '\0' !in s {
      StorableIffNoNul(items[i]);
    }
    forall i | 0 <= i < |items| ensures forall s :: Occurs(s, items[i]) ==> Occurs(s, v) { }
  }

  /** A value can be written and is read back unchanged exactly when it is JSON-native and
      without U+0000. */
  lemma RoundTripIffNative(v: Value)
    ensures ReadBack(v) == Some(v) <==> Native(v) && Storable(v)
  {
    StoredIffNative(v);
  }

  lemma {:induction false} StoredIffNative(v: Value)
    ensures Stored(v) == v <==> Native(v)
  {
    match v
    case List(items) =>
      forall i | 0 <= i < |items| ensures Stored(items[i]) == items[i] <==> Native(items[i]) {
        StoredIffNative(items[i]);
      }
      if Stored(v) == v {
        forall i | 0 <= i < |items| ensures Native(items[i]) { assert Stored(v).items[i] == Stored(items[i]); }
      }
    case Dict(fields) =>
      forall k | k in fields ensures Stored(fields[k]) == fields[k] <==> Native(fields[k]) {
        StoredIffNative(fields[k]);
      }
      if Stored(v) == v {
        forall k | k in fields ensures Native(fields[k]) { assert Stored(v).fields[k] == Stored(fields[k]); }
      }
    case _ =>
  }
}
