/** JavaScript values the pages test for truthiness. */
module JsValues {

  /** `null`/`undefined` versus a present value. */
  datatype Option<+T> = None | Some(value: T)

  /** A JavaScript number as `parseFloat` returns it: NaN, or a number.
      Infinities are not told apart from other non-zero numbers. */
  datatype Number = NaN | Num(value: real)

  /** `!n`: the numbers JavaScript treats as false are NaN and zero. */
  predicate FalsyNumber(n: Number) {
    n == NaN || n.value == 0.0
  }
}
