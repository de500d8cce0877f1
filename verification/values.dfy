/**
 * The JavaScript values that travel through the relay (request bodies,
 * notification payloads), with JavaScript's notion of truthiness.
 */
module Values {

  /** Numbers are modelled as integers; objects as their property list in literal order. */
  datatype Value =
    | Undefined
    | Null
    | Bool(b: bool)
    | Num(n: int)
    | Str(s: string)
    | Arr(items: seq<Value>)
    | Obj(fields: seq<(string, Value)>)

  /** `!!v` in JavaScript: undefined, null, false, 0 and "" are falsy, everything else is truthy. */
  predicate Truthy(v: Value) {
    match v
    case Undefined => false
    case Null => false
    case Bool(b) => b
    case Num(n) => n != 0
    case Str(s) => s != ""
    case Arr(_) => true
    case Obj(_) => true
  }

  /** `a || b` in JavaScript. */
  function Or(a: Value, b: Value): Value {
    if Truthy(a) then a else b
  }

  /** Property lookup `v[key]`; a later property of an object literal wins over an earlier one. */
  function Field(v: Value, key: string): Value {
    match v
    case Obj(fields) => Lookup(fields, key)
    case _ => Undefined
  }

  function Lookup(fields: seq<(string, Value)>, key: string): Value {
    if fields == [] then Undefined
    else if fields[|fields| - 1].0 == key then fields[|fields| - 1].1
    else Lookup(fields[..|fields| - 1], key)
  }

  /** The keys of `fields` are pairwise different, as in every object literal of the relay. */
  predicate DistinctKeys(fields: seq<(string, Value)>) {
    forall i, j :: 0 <= i < j < |fields| ==> fields[i].0 != fields[j].0
  }

  /** In an object whose keys are distinct, each key looks up its own value. */
  lemma {:induction false} LookupDistinct(fields: seq<(string, Value)>)
    requires DistinctKeys(fields)
    ensures forall i :: 0 <= i < |fields| ==> Lookup(fields, fields[i].0) == fields[i].1
  {
    if fields != [] {
      var init := fields[..|fields| - 1];
      assert DistinctKeys(init);
      LookupDistinct(init);
      forall i | 0 <= i < |fields| ensures Lookup(fields, fields[i].0) == fields[i].1 {
        if i < |fields| - 1 {
          assert init[i] == fields[i];
        }
      }
    }
  }
}
