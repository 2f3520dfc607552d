/**
 * The little of JavaScript's value semantics that the members modelling
 * code "as written" need: `undefined`, `NaN`, numbers, the row arrays that
 * queries resolve with.
 */
module Js {

  datatype JsValue =
    | Undefined
    | NaN
    | Num(n: int)
    | Rows(rows: seq<map<string, int>>)

  /** Property access: an array of rows has a `length` and no column names. */
  function Prop(v: JsValue, name: string): JsValue {
    if v.Rows? && name == "length" then Num(|v.rows|) else Undefined
  }

  /**
   * `+`: numbers add; anything else gives no number. (On two arrays JS
   * concatenates strings; the code modelled here only passes such a result
   * on to `-`, `+` or `Math.min`, where it is NaN or stays a string, so it
   * is kept as NaN.)
   */
  function Plus(x: JsValue, y: JsValue): JsValue {
    if x.Num? && y.Num? then Num(x.n + y.n) else NaN
  }

  /** `-`: numbers subtract; anything else gives NaN. */
  function Minus(x: JsValue, y: JsValue): JsValue {
    if x.Num? && y.Num? then Num(x.n - y.n) else NaN
  }

  /** `Math.min` of two values: NaN unless both are numbers. */
  function Min(x: JsValue, y: JsValue): JsValue {
    if x.Num? && y.Num? then Num(if x.n < y.n then x.n else y.n) else NaN
  }

  /** `>`: false whenever a side is not a number. */
  predicate Greater(x: JsValue, y: JsValue) {
    x.Num? && y.Num? && x.n > y.n
  }
}
