/**
 * The two zod shapes the contract uses: an object whose fields are
 * `z.string()` or `z.string().optional()`. Unknown keys are accepted (zod's
 * default object mode); stripping them and coercion belong to zod.
 */
module Schema {
  import opened JsValues

  datatype FieldSchema =
    | ZString                       // z.string()
    | ZOptional(inner: FieldSchema) // <inner>.optional()

  datatype ObjectSchema = ZObject(fields: map<string, FieldSchema>)

  /** Whether a field value (`undefined` when the key is absent) passes `f`. */
  predicate FieldAccepts(f: FieldSchema, v: Value) {
    match f
    case ZString => v.Str?
    case ZOptional(inner) => v.Undefined? || FieldAccepts(inner, v)
  }

  /** Whether `v` passes `z.object(s.fields)`. */
  predicate Accepts(s: ObjectSchema, v: Value) {
    && v.Obj?
    && forall k :: k in s.fields ==> FieldAccepts(s.fields[k], Get(v.fields, k))
  }
}
