/** The JavaScript values a parsed JSON request body can carry, and the
    truthiness test that `!x` applies to them. Numbers are integers here. */
module JsValues {

  datatype JsValue =
    | Undefined            // the property is absent from the body
    | Null
    | Bool(b: bool)
    | Num(n: int)
    | Str(s: string)
    | Obj                  // any object or array; its contents play no part here

  /** `!!v`: the falsy values are undefined, null, false, 0 and "". */
  predicate Truthy(v: JsValue)
  {
    match v
    case Undefined => false
    case Null => false
    case Bool(b) => b
    case Num(n) => n != 0
    case Str(s) => s != ""
    case Obj => true
  }

  /** `typeof v === "number"` */
  predicate IsNumber(v: JsValue)
  {
    v.Num?
  }
}
