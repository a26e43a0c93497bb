/**
 * Instants and durations. An instant is a count of microseconds since the
 * Unix epoch (UTC); a duration is a difference of two instants.
 */
module Timestamps {
  import opened Wrappers
  import Decimal

  const SECOND: int := 1000000
  const MINUTE: int := 60 * SECOND
  const HOUR: int := 60 * MINUTE
  const DAY: int := 24 * HOUR

  /** Python's `int(a / b)` for a positive `b`: the quotient truncated toward zero. */
  function TruncDiv(a: int, b: int): (q: int)
    requires b > 0
    ensures a >= 0 ==> 0 <= q && q * b <= a < q * b + b
    ensures a < 0 ==> q <= 0 && q * b - b < a <= q * b
  {
    if a >= 0 then a / b else -((-a) / b)
  }

  /**
   * `datetime.isoformat()` and `datetime.fromisoformat()`. The calendar text
   * format is not part of this model; `parse` yields `None` where
   * `fromisoformat` raises.
   */
  datatype IsoCodec = IsoCodec(format: int -> string, parse: string -> Option<int>)

  /** Every rendered instant is a non-empty string that parses back to itself. */
  ghost predicate RoundTrips(c: IsoCodec)
  {
    forall t :: c.format(t) != "" && c.parse(c.format(t)) == Some(t)
  }

  lemma FormatParses(c: IsoCodec, t: int)
    requires RoundTrips(c)
    ensures c.format(t) != "" && c.parse(c.format(t)) == Some(t)
  {
  }

  /** A codec that writes the microsecond count in decimal. */
  function DecimalCodec(): IsoCodec
  {
    IsoCodec(Decimal.IntToString, Decimal.ParseInt)
  }

  /** The decimal codec shows that `RoundTrips` can be met. */
  lemma DecimalCodecRoundTrips()
    ensures RoundTrips(DecimalCodec())
  {
    forall t ensures DecimalCodec().format(t) != "" && DecimalCodec().parse(DecimalCodec().format(t)) == Some(t) {
      Decimal.ParseIntToString(t);
    }
  }
}
