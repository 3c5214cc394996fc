/** Helpers shared by the command handlers. */
module CommandHelpers {
  import opened JsValues

  /** A property `removeNonValues` deletes: its `typeof` is "function" or "object" (so `null` too); see `TypeOfKinds`. */
  predicate IsNonValue(v: Value) {
    v.Func? || v.Obj? || v.Null?
  }

  /** The record left once every function- or object-valued property is deleted. */
  function Plain(rec: Record): (r: Record)
    // no key is added
    ensures r.Keys <= rec.Keys
    // what is left holds its old value, and no function, object or null
    ensures forall k :: k in r ==> r[k] == rec[k] && !IsNonValue(r[k])
    // every string, number, boolean or undefined property is kept
    ensures forall k :: k in rec && !IsNonValue(rec[k]) ==> k in r
  {
    map k | k in rec && !IsNonValue(rec[k]) :: rec[k]
  }

  /**
   * `removeNonValues(associativeArray)` (and its twin `removeUgly`): deletes,
   * in place, the keys whose value is a function or an object, so that the
   * record can be logged as plain JSON. Returns nothing.
   */
  method RemoveNonValues(obj: JsObject)
    modifies obj
    ensures obj.props == Plain(old(obj.props))
  {
    ghost var original := obj.props;
    var keys := obj.props.Keys;
    while keys != {}
      invariant keys <= original.Keys
      invariant obj.props.Keys <= original.Keys
      invariant forall k :: k in keys ==> k in obj.props && obj.props[k] == original[k]
      invariant forall k :: k in original && k !in keys ==> (k in obj.props <==> k in Plain(original))
      invariant forall k :: k in obj.props ==> obj.props[k] == original[k]
      decreases keys
    {
      var k :| k in keys;
      if IsNonValue(obj.props[k]) {
        obj.props := obj.props - {k};
      }
      keys := keys - {k};
    }
  }

  /** The surviving properties are exactly the primitive ones: strings, numbers, booleans and undefined. */
  lemma PlainKeepsPrimitives(rec: Record)
    ensures forall k :: k in Plain(rec) <==> k in rec && (rec[k].Str? || rec[k].Num? || rec[k].Bool? || rec[k].Undef?)
  {
  }

  /** Culling twice is the same as culling once. */
  lemma PlainIdempotent(rec: Record)
    ensures Plain(Plain(rec)) == Plain(rec)
  {
  }
}
