/** Request values as the handlers see them after JSON body parsing, with
    JavaScript's truthiness and the `||` and `== null` operators. */
module Json {

  /** A field of a parsed request body. `Undefined` is what destructuring
      yields for an absent field; `Composite` stands for any array or object,
      all of which JavaScript treats as truthy. */
  datatype Value =
    | Undefined
    | Null
    | Bool(b: bool)
    | Num(x: real)
    | Str(s: string)
    | Composite

  /** A parsed JSON request body. */
  type Body = map<string, Value>

  /** `const { key } = body`: an absent key reads as `undefined`. */
  function Field(body: Body, key: string): Value
  {
    if key in body then body[key] else Undefined
  }

  /** JavaScript's `Boolean(v)`: exactly the five falsy values are rejected. */
  function Truthy(v: Value): (t: bool)
    ensures !t <==> v == Undefined || v == Null || v == Bool(false) || v == Num(0.0) || v == Str("")
  {
    match v
    case Undefined => false
    case Null => false
    case Bool(b) => b
    case Num(x) => x != 0.0
    case Str(s) => |s| > 0
    case Composite => true
  }

  /** `v === undefined || v === null`. */
  predicate IsNullish(v: Value)
  {
    v == Undefined || v == Null
  }

  /** JavaScript's `a || b`: the first operand when it is truthy, else the second. */
  function Or(a: Value, b: Value): (r: Value)
    ensures r == a || r == b
    ensures Truthy(r) <==> Truthy(a) || Truthy(b)
    ensures Truthy(a) ==> r == a
    ensures !Truthy(a) ==> r == b
  {
    if Truthy(a) then a else b
  }
}
