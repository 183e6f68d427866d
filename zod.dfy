/** The part of zod's validation results the schemas produce: issues, in the order zod reports them. */
module Zod {
  import Js

  /** One validation issue: the field it is about and its message. */
  datatype Issue = Issue(path: string, message: string)

  /** zod's default `invalid_type` message for a value that is not of the `expected` type. */
  function InvalidTypeMessage(expected: string, received: Js.Value): (r: string)
    ensures r == "Required" <==> received.Undefined?
  {
    if received.Undefined? then "Required" else "Expected " + expected + ", received " + Js.TypeName(received)
  }
}
