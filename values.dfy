/** JavaScript values as the system manipulates them: requests are plain objects that
    middleware extend by shallow spreading. */
module Values {

  /** A JavaScript value. Numbers are integers only; `Fn` stands for a function value
      (a host callback), known only by identity. */
  datatype Value =
    | Undefined
    | Null
    | Bool(b: bool)
    | Num(n: int)
    | Str(s: string)
    | Arr(elems: seq<Value>)
    | Obj(fields: map<string, Value>)
    | Fn(id: nat)

  /** A plain object's own enumerable properties. */
  type Record = map<string, Value>

  /** `v[key]` for a property read; only plain objects have properties here. */
  function Prop(v: Value, key: string): (r: Value)
    ensures v.Obj? && key in v.fields ==> r == v.fields[key]
    ensures !(v.Obj? && key in v.fields) ==> r == Undefined
  {
    if v.Obj? && key in v.fields then v.fields[key] else Undefined
  }

  /** JavaScript truthiness. */
  predicate Truthy(v: Value) {
    match v
    case Undefined => false
    case Null => false
    case Bool(b) => b
    case Num(n) => n != 0
    case Str(s) => s != ""
    case _ => true
  }

  /** `{ ...a, ...b }`: every key of either, with `b` winning on a collision. */
  function Merge(a: Record, b: Record): (r: Record)
    ensures r.Keys == a.Keys + b.Keys
    ensures forall k :: k in b ==> r[k] == b[k]
    ensures forall k :: k in a && k !in b ==> r[k] == a[k]
  {
    a + b
  }

  /** The decimal spelling of an array index, as used for the keys of a spread array or string. */
  function IndexKey(i: nat): (r: string)
    ensures |r| > 0
    decreases i
  {
    if i < 10 then [DigitChar(i)] else IndexKey(i / 10) + [DigitChar(i % 10)]
  }

  function DigitChar(d: nat): char
    requires d < 10
  {
    "0123456789"[d]
  }

  /** `{ ...v }`: a shallow copy. An object keeps its properties; an array or a string
      spreads into index-keyed properties; every other value spreads into `{}`. */
  function ShallowClone(v: Value): (r: Value)
    ensures r.Obj?
    ensures v.Obj? ==> r == v
  {
    match v
    case Obj(fields) => Obj(fields)
    case Arr(elems) => Obj(Indexed(elems))
    case Str(s) => Obj(Indexed(seq(|s|, i requires 0 <= i < |s| => Str([s[i]]))))
    case _ => Obj(map[])
  }

  function Indexed(elems: seq<Value>): Record {
    assert forall i: nat, j: nat :: IndexKey(i) == IndexKey(j) ==> i == j by {
      forall i: nat, j: nat ensures IndexKey(i) == IndexKey(j) ==> i == j {
        IndexKeyInjective(i, j);
      }
    }
    map i: nat | i < |elems| :: IndexKey(i) := elems[i]
  }

  /** Distinct indices have distinct spellings, so no two elements share a key. */
  lemma {:induction false} IndexKeyInjective(i: nat, j: nat)
    ensures IndexKey(i) == IndexKey(j) ==> i == j
    decreases i
  {
    if IndexKey(i) == IndexKey(j) {
      var a, b := IndexKey(i), IndexKey(j);
      if i >= 10 && j >= 10 {
        assert a[..|a| - 1] == IndexKey(i / 10) && b[..|b| - 1] == IndexKey(j / 10);
        IndexKeyInjective(i / 10, j / 10);
        assert a[|a| - 1] == DigitChar(i % 10) && b[|b| - 1] == DigitChar(j % 10);
      }
    }
  }
}
