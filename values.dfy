/**
 * Property values. The source types them as `any`; the model uses a
 * JSON-shaped value with integer numbers only, close to what block
 * properties hold once a page has been serialised. JavaScript `undefined`
 * is never a `Value`: it is an absent map key or `None`.
 */
module Values {

  datatype Value =
    | Null
    | Bool(b: bool)
    | Num(n: int)
    | Str(s: string)
    | Arr(items: seq<Value>)
    | Obj(fields: map<string, Value>)

  type Properties = map<string, Value>
}
