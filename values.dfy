/**
 * The scalar values a one-row feature frame holds: a number (Python `int`
 * or `float`), a 0/1 flag produced by `int(b)` on a checkbox, or a string.
 */
module Values {

  /** The results `int(False)` and `int(True)`. */
  type Bit = b: int | 0 <= b <= 1

  datatype Value = Num(n: real) | Flag(bit: Bit) | Str(s: string)

  /** Python's `int(b)` on a checkbox state. */
  function FlagOf(b: bool): (r: Bit)
    ensures r == 1 <==> b
  {
    if b then 1 else 0
  }

  /**
   * `astype(str)` on one cell. Strings are left alone, flags print as "0"
   * or "1", and a number prints as Python's `str` of it, which this model
   * takes as the parameter `numeral`.
   */
  function AsString(v: Value, numeral: real -> string): (r: Value)
    ensures r.Str?
    ensures v.Str? ==> r == v
    ensures v.Flag? ==> r.s == (if v.bit == 1 then "1" else "0")
  {
    match v
    case Str(_) => v
    case Flag(b) => Str(if b == 1 then "1" else "0")
    case Num(x) => Str(numeral(x))
  }

  lemma AsStringIdempotent(v: Value, numeral: real -> string)
    ensures AsString(AsString(v, numeral), numeral) == AsString(v, numeral)
  {
  }
}
