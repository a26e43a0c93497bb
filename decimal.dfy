/**
 * Decimal renderings of integers as Python's `str(n)`, `f"{n:02d}"` and
 * `f"{n:,}"` produce them, with the parser that inverts `str(n)`.
 */
module Decimal {
  import opened Wrappers

  predicate IsDigit(c: char) { '0' <= c <= '9' }

  function DigitChar(d: nat): (c: char)
    requires d < 10
    ensures IsDigit(c) && c as int - '0' as int == d
  {
    (d + '0' as int) as char
  }

  function DigitValue(c: char): Option<nat>
  {
    if IsDigit(c) then Some(c as int - '0' as int) else None
  }

  /** `str(n)` for a non-negative integer: no sign, no leading zeros. */
  function NatToString(n: nat): (r: string)
    ensures |r| >= 1 && (forall i | 0 <= i < |r| :: IsDigit(r[i]))
    ensures n < 10 <==> |r| == 1
  {
    if n < 10 then [DigitChar(n)] else NatToString(n / 10) + [DigitChar(n % 10)]
  }

  /** `int(s)` on a non-empty string of decimal digits; `None` otherwise. */
  function ParseDigits(s: string): Option<nat>
  {
    if s == [] then None
    else if |s| == 1 then DigitValue(s[0])
    else match (ParseDigits(s[..|s| - 1]), DigitValue(s[|s| - 1]))
      case (Some(a), Some(d)) => Some(10 * a + d)
      case _ => None
  }

  lemma {:induction false} ParseNatToString(n: nat)
    ensures ParseDigits(NatToString(n)) == Some(n)
  {
    if n >= 10 {
      var s := NatToString(n);
      assert s[..|s| - 1] == NatToString(n / 10);
      ParseNatToString(n / 10);
    }
  }

  /** `str(i)` for any integer. */
  function IntToString(i: int): (r: string)
    ensures r != []
  {
    if i < 0 then "-" + NatToString(-i) else NatToString(i)
  }

  function ParseInt(s: string): Option<int>
  {
    if |s| > 0 && s[0] == '-' then
      match ParseDigits(s[1..])
      case Some(n) => Some(-(n as int))
      case None => None
    else
      match ParseDigits(s)
      case Some(n) => Some(n)
      case None => None
  }

  lemma ParseIntToString(i: int)
    ensures ParseInt(IntToString(i)) == Some(i)
  {
    var s := IntToString(i);
    if i < 0 {
      var t := NatToString(-i);
      assert s == "-" + t;
      assert s[0] == '-' && s[1..] == t;
      ParseNatToString(-i);
      assert ParseDigits(s[1..]) == Some(-i);
    } else {
      ParseNatToString(i);
      assert IsDigit(s[0]) && s[0] != '-';
      assert ParseDigits(s) == Some(i);
    }
  }

  /** `n` zero digits. */
  function Zeros(n: nat): (r: string)
    ensures |r| == n && forall i | 0 <= i < n :: r[i] == '0'
  {
    if n == 0 then [] else Zeros(n - 1) + "0"
  }

  /** Left-pads `s` with zeros to `width` characters, as `:0<width>d` does. */
  function ZeroPad(s: string, width: nat): (r: string)
    ensures |r| == if |s| < width then width else |s|
    ensures r[|r| - |s|..] == s
    ensures forall i | 0 <= i < |r| - |s| :: r[i] == '0'
  {
    if |s| < width then
      var z := Zeros(width - |s|);
      assert (z + s)[|z|..] == s;
      z + s
    else s
  }

  /** Separates the digits of `digits` into groups of three from the right. */
  function InsertCommas(digits: string): string
  {
    if |digits| <= 3 then digits
    else InsertCommas(digits[..|digits| - 3]) + "," + digits[|digits| - 3..]
  }

  /** `f"{n:,}"` for a non-negative integer. */
  function GroupThousands(n: nat): string
  {
    InsertCommas(NatToString(n))
  }

  /** `s` with every comma removed. */
  function DropCommas(s: string): string
  {
    if s == [] then []
    else DropCommas(s[..|s| - 1]) + (if s[|s| - 1] == ',' then [] else [s[|s| - 1]])
  }

  lemma {:induction false} DropCommasAppend(a: string, b: string)
    ensures DropCommas(a + b) == DropCommas(a) + DropCommas(b)
    decreases |b|
  {
    if b != [] {
      assert (a + b)[..|a + b| - 1] == a + b[..|b| - 1];
      DropCommasAppend(a, b[..|b| - 1]);
    } else {
      assert a + b == a;
    }
  }

  lemma {:induction false} DropCommasDigits(s: string)
    requires forall i | 0 <= i < |s| :: IsDigit(s[i])
    ensures DropCommas(s) == s
  {
    if s != [] {
      DropCommasDigits(s[..|s| - 1]);
    }
  }

  /** Removing the separators from a grouped digit string gives the digits back. */
  lemma {:induction false} InsertCommasDigits(digits: string)
    requires forall i | 0 <= i < |digits| :: IsDigit(digits[i])
    ensures DropCommas(InsertCommas(digits)) == digits
  {
    if |digits| <= 3 {
      DropCommasDigits(digits);
    } else {
      var head, tail := digits[..|digits| - 3], digits[|digits| - 3..];
      InsertCommasDigits(head);
      DropCommasAppend(InsertCommas(head) + ",", tail);
      DropCommasAppend(InsertCommas(head), ",");
      assert DropCommas(",") == [];
      DropCommasDigits(tail);
      assert head + tail == digits;
    }
  }

  /** A comma stands exactly at every fourth place from the right of `r`. */
  predicate CommaEveryFourth(r: string)
  {
    forall i | 0 <= i < |r| :: (r[i] == ',' <==> (|r| - i) % 4 == 0)
  }

  /** In a grouped digit string a comma stands exactly at every fourth place from the right. */
  lemma {:induction false} InsertCommasLayout(digits: string)
    requires forall i | 0 <= i < |digits| :: IsDigit(digits[i])
    ensures CommaEveryFourth(InsertCommas(digits))
  {
    var r := InsertCommas(digits);
    if |digits| > 3 {
      var head, tail := digits[..|digits| - 3], digits[|digits| - 3..];
      var h := InsertCommas(head);
      InsertCommasLayout(head);
      assert r == h + "," + tail;
      forall i | 0 <= i < |r| ensures r[i] == ',' <==> (|r| - i) % 4 == 0 {
        if i < |h| {
          assert r[i] == h[i];
          assert (|r| - i) % 4 == (|h| - i) % 4;
          assert h[i] == ',' <==> (|h| - i) % 4 == 0;
        } else if i > |h| {
          assert r[i] == tail[i - |h| - 1] == digits[|digits| - 3 + (i - |h| - 1)];
          assert IsDigit(r[i]) && 1 <= |r| - i <= 3;
        } else {
          assert r[i] == ',';
        }
      }
    }
  }

  /** `f"{n:,}"`: the digits of `str(n)`, with a comma before every group of three from the right. */
  lemma GroupThousandsSpec(n: nat)
    ensures DropCommas(GroupThousands(n)) == NatToString(n)
    ensures CommaEveryFourth(GroupThousands(n))
  {
    InsertCommasDigits(NatToString(n));
    InsertCommasLayout(NatToString(n));
  }

  /** `f"{i:,}"` for any integer: the sign, then the grouped digits of its magnitude. */
  function FormatWithCommas(i: int): string
  {
    if i < 0 then "-" + GroupThousands(-i) else GroupThousands(i)
  }

  /** `f"{i:,}"`: the sign of a negative number, then the digits of the magnitude grouped by threes. */
  lemma FormatWithCommasSpec(i: int)
    ensures i >= 0 ==> DropCommas(FormatWithCommas(i)) == NatToString(i) && CommaEveryFourth(FormatWithCommas(i))
    ensures i < 0 ==> FormatWithCommas(i)[0] == '-'
                      && DropCommas(FormatWithCommas(i)[1..]) == NatToString(-i)
                      && CommaEveryFourth(FormatWithCommas(i)[1..])
  {
    if i < 0 {
      GroupThousandsSpec(-i);
      assert FormatWithCommas(i)[1..] == GroupThousands(-i);
    } else {
      GroupThousandsSpec(i);
    }
  }
}
