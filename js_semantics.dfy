/**
 * Just enough of JavaScript's value semantics to evaluate the expression
 * `field[0].text || field`: numeric indexing, reading the `text` property,
 * truthiness and the `||` operator. It is the reference against which the
 * field normaliser of the post list is checked.
 */
module JsSemantics {
  import opened Wrappers

  /** The JavaScript values a CMS field can hold, as far as the expression can tell them apart. */
  datatype Value =
    | Undefined
    | Null
    | Str(s: string)
    /** An object; only its `text` property is ever read. */
    | Record(text: Value)
    | Array(elems: seq<Value>)

  /** `v[i]`: throws on `undefined` and `null`; an index past the end, or on an object, gives `undefined`. */
  function Index(v: Value, i: nat): Result<Value>
  {
    match v
    case Undefined => Err(TypeError)
    case Null => Err(TypeError)
    case Str(s) => Ok(if i < |s| then Str([s[i]]) else Undefined)
    case Record(_) => Ok(Undefined)
    case Array(elems) => Ok(if i < |elems| then elems[i] else Undefined)
  }

  /** `v.text`: throws on `undefined` and `null`; strings and arrays have no `text` property. */
  function GetText(v: Value): Result<Value>
  {
    match v
    case Undefined => Err(TypeError)
    case Null => Err(TypeError)
    case Record(text) => Ok(text)
    case _ => Ok(Undefined)
  }

  /** JavaScript truthiness: `undefined`, `null` and `""` are falsy; objects and arrays are truthy. */
  predicate Truthy(v: Value)
  {
    match v
    case Undefined => false
    case Null => false
    case Str(s) => s != ""
    case _ => true
  }

  /** `a || b`. */
  function Or(a: Value, b: Value): Value
  {
    if Truthy(a) then a else b
  }

  /** `field[0].text || field`, evaluated left to right; an exception ends the evaluation. */
  function FirstTextOr(field: Value): (r: Result<Value>)
    ensures r.Err? <==> match field
                          case Undefined => true
                          case Null => true
                          case Str(s) => s == ""
                          case Record(_) => true
                          case Array(elems) => elems == [] || elems[0].Undefined? || elems[0].Null?
    ensures r.Ok? ==> Truthy(r.value) || r.value == field
  {
    match Index(field, 0)
    case Err(e) => Err(e)
    case Ok(first) =>
      match GetText(first)
      case Err(e) => Err(e)
      case Ok(text) => Ok(Or(text, field))
  }
}
