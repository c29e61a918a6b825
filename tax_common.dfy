/** Small building blocks shared by every tax calculation: the optional value
    the calculators return in place of `null`, the clamping helpers that mirror
    `Math.min` / `Math.max`, and the 20% surcharge factor applied to taxpayers
    without a tax identification number (NPWP). All amounts are Rupiah, modelled
    as exact reals. */
module TaxCommon {

  datatype Option<T> = None | Some(value: T)

  /** The smaller of two amounts. */
  function Min(a: real, b: real): (r: real)
    ensures r <= a && r <= b
    ensures r == a || r == b
  {
    if a <= b then a else b
  }

  /** The larger of two amounts. */
  function Max(a: real, b: real): (r: real)
    ensures r >= a && r >= b
    ensures r == a || r == b
  {
    if a >= b then a else b
  }

  /** Multiplier applied to a rate or a tax when the payee has no NPWP. */
  const NoNpwpFactor: real := 1.2

  /** Percentage rate applied to an amount: `amount * (rate / 100)`. */
  function PercentOf(amount: real, rate: real): (r: real)
    ensures amount >= 0.0 && rate >= 0.0 ==> r >= 0.0
    ensures amount == 0.0 || rate == 0.0 ==> r == 0.0
  {
    amount * (rate / 100.0)
  }
}
