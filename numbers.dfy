/**
 * Java doubles as the statistics use them. Values are taken as exact reals
 * (no rounding is modelled); the NaN that `0.0 / 0` yields is kept apart,
 * and the two sentinels of the extremum scans have their exact values.
 */
module Numbers {

  /** Double.MAX_VALUE, the largest finite double: (2 - 2^-52) * 2^1023. */
  const MAX_VALUE: real := 179769313486231570814527423731704356798070567525844996598917476803157260780028538760589558632766878171540458953514382464234321326889464182768467546703537516986049910576551282076245490090389328944075868508455133942304583236903222948165808559332123348274797826204144723168738177180919299881250404026184124858368.0

  /** Double.MIN_VALUE, 2^-1074: the smallest POSITIVE double, not the most negative one. */
  const MIN_VALUE: real := 1.0 / 202402253307310618352495346718917307049556649764142118356901358027430339567995346891960383701437124495187077864316811911389808737385793476867013399940738509921517424276566361364466907742093216341239767678472745068562007483424692698618103355649159556340810056512358769552333414615230502532186327508646006263307707741093494784.0

  /** A double result: a finite value, or the NaN of a zero-by-zero division. */
  datatype Num = Finite(v: real) | NaN

  /**
   * Java's `x / d` for a double `x` and an integral count `d`. Every caller
   * divides a zero sum or a zero count by a zero count, so the result is NaN,
   * never an infinity, and no exception is thrown.
   */
  function Quotient(x: real, d: int): (r: Num)
    requires d == 0 ==> x == 0.0
    ensures r.NaN? <==> d == 0
    ensures r.Finite? ==> r.v * (d as real) == x
  {
    if d == 0 then NaN else Finite(x / d as real)
  }
}
