/**
 * The JavaScript values that the request pipeline inspects: the `typeof`
 * classification used by `send` and the truthiness used by `&&` and `||`.
 */
module Js {

  /**
   * A JavaScript value. `Bytes` stands for an already-encoded body such as a
   * `Uint8Array` or an `ArrayBuffer`; like arrays and plain objects it is an
   * object as far as `typeof` is concerned. `Function`, `BigInt` and `Symbol`
   * are the other values that are neither objects nor strings to `typeof`.
   */
  datatype Value =
    | Undefined
    | Null
    | Boolean(b: bool)
    | Number(n: real)
    | Str(s: string)
    | Array(elements: seq<Value>)
    | Object(properties: seq<(string, Value)>)
    | Bytes(data: seq<bv8>)
    | Function
    | BigInt(i: int)
    | Symbol(description: string)

  /** The result of the `typeof` operator. */
  function TypeOf(v: Value): string
  {
    match v
    case Undefined => "undefined"
    case Boolean(_) => "boolean"
    case Number(_) => "number"
    case Str(_) => "string"
    case Null | Array(_) | Object(_) | Bytes(_) => "object"
    case Function => "function"
    case BigInt(_) => "bigint"
    case Symbol(_) => "symbol"
  }

  /** JavaScript truthiness: `undefined`, `null`, `false`, `0`, `0n` and `""` are falsy. */
  predicate Truthy(v: Value)
  {
    match v
    case Undefined | Null => false
    case Boolean(b) => b
    case Number(n) => n != 0.0
    case Str(s) => s != ""
    case BigInt(i) => i != 0
    case Array(_) | Object(_) | Bytes(_) | Function | Symbol(_) => true
  }
}
