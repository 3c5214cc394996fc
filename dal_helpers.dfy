/** Provider-agnostic helpers the mock repositories build their instances with. */
module DalHelpers {
  import opened JsValues

  /**
   * `optionalArgument(first, second, type)`: `first` when its `typeof` is
   * `type`, `second` otherwise. The repositories use it so that
   * `create(fields, id)` may also be called as `create(id)`.
   */
  function OptionalArgument(first: Value, second: Value, ty: string): Value {
    if TypeOf(first) == ty then first else second
  }

  /**
   * The repositories ask for a "number": a numeric first argument is taken
   * as the id, anything else (a fields object, undefined, null) gives way
   * to the second.
   */
  lemma NumberArgument(first: Value, second: Value)
    ensures OptionalArgument(first, second, "number") == if first.Num? then first else second
    ensures first.Obj? || first.Null? || first.Undef? ==> OptionalArgument(first, second, "number") == second
  {
  }

  /** The record id an argument denotes; 0 stands for "no id" (a falsy or non-numeric id). */
  function IdOf(v: Value): nat {
    if v.Num? && v.n > 0 then v.n else 0
  }

  /**
   * The properties `fields || {}` offers to a lookup `fields[field]`. A
   * missing or null argument offers none, and so does a primitive (none of
   * the repositories' slot names is a property of a primitive).
   */
  function FieldsOf(fields: Value): Record {
    if fields.Obj? then fields.props else map[]
  }

  /**
   * What a declared, non-function slot holds once `populateFields` has run:
   * the field's value when `fields` defines one, `otherwise` (the slot's
   * declared value) when the field is absent or undefined.
   */
  function Given(fields: Value, k: string, otherwise: Value): Value {
    if k in FieldsOf(fields) && FieldsOf(fields)[k] != Undef then FieldsOf(fields)[k] else otherwise
  }

  /** The instance after `populateFields(instance, fields)`; a slot whose `typeof` is "function" is a `Func` (`TypeOfKinds`). */
  function Populated(instance: Record, fields: Value): (r: Record)
    // only slots the instance already declares are assigned
    ensures r.Keys == instance.Keys
    // function-valued slots (getId, getContext, ...) are never overwritten
    ensures forall k :: k in instance && instance[k].Func? ==> r[k] == instance[k]
    // a field whose value is undefined, or that is absent, leaves the slot alone
    ensures forall k :: k in instance && (k !in FieldsOf(fields) || FieldsOf(fields)[k] == Undef) ==> r[k] == instance[k]
    // every other declared slot takes the field's value
    ensures forall k ::
      k in instance && !instance[k].Func? && k in FieldsOf(fields) && FieldsOf(fields)[k] != Undef ==>
        r[k] == FieldsOf(fields)[k]
    // missing or null fields leave the instance as it was
    ensures !Truthy(fields) ==> r == instance
  {
    var f := FieldsOf(fields);
    map k | k in instance :: if !instance[k].Func? && k in f && f[k] != Undef then f[k] else instance[k]
  }

  /** Each declared slot that is not a function holds what the fields give it, falling back to its declared value. */
  lemma PopulatedSlots(instance: Record, fields: Value)
    ensures forall k :: k in instance && !instance[k].Func? ==> Populated(instance, fields)[k] == Given(fields, k, instance[k])
  {
  }

  /** A slot declared undefined ends up holding exactly the field's value, whether that is defined or not. */
  lemma UndefSlotTakesField(instance: Record, fields: Value, k: string)
    requires k in instance && instance[k] == Undef
    requires fields.Obj? && k in fields.props
    ensures Populated(instance, fields)[k] == fields.props[k]
  {
  }

  /**
   * `populateFields(instance, fields)`: overwrites, in place, each declared
   * non-function slot for which `fields` has a defined value, and returns
   * the very instance it was given.
   */
  method PopulateFields(instance: JsObject, fields: Value) returns (r: JsObject)
    modifies instance
    ensures r == instance
    ensures instance.props == Populated(old(instance.props), fields)
  {
    var f := FieldsOf(fields);
    ghost var original := instance.props;
    var keys := instance.props.Keys;
    while keys != {}
      invariant keys <= original.Keys
      invariant instance.props.Keys == original.Keys
      invariant forall k :: k in keys ==> instance.props[k] == original[k]
      invariant forall k :: k in original && k !in keys ==> instance.props[k] == Populated(original, fields)[k]
      decreases keys
    {
      var k :| k in keys;
      if !instance.props[k].Func? && k in f && f[k] != Undef {
        instance.props := instance.props[k := f[k]];
      }
      keys := keys - {k};
    }
    r := instance;
  }
}
