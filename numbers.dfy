/**
 * Java's conversions between `int` and decimal strings (`String.valueOf`,
 * `"" + n`, `Integer.parseInt`) and the coordination-cache key
 * `fileId + chunkNo` that both the restore manager and the message
 * worker build by string concatenation.
 */
module Numbers {
  import opened Common

  predicate IsDigit(c: char) {
    '0' <= c <= '9'
  }

  predicate AllDigits(s: string) {
    forall i :: 0 <= i < |s| ==> IsDigit(s[i])
  }

  function DigitChar(d: nat): (c: char)
    requires d < 10
    ensures IsDigit(c) && c as int - '0' as int == d
  {
    ('0' as int + d) as char
  }

  /** The decimal digits of a natural number, most significant first, without leading zeros. */
  function NatString(n: nat): (s: string)
    ensures |s| >= 1 && AllDigits(s)
    ensures n < 10 <==> |s| == 1
  {
    if n < 10 then [DigitChar(n)] else NatString(n / 10) + [DigitChar(n % 10)]
  }

  /** `String.valueOf(n)` for a Java `int`: a minus sign for negative numbers, then the digits. */
  function DecimalString(n: int): (s: string)
    ensures |s| >= 1
    ensures n >= 0 ==> AllDigits(s)
    ensures n < 0 ==> s[0] == '-' && AllDigits(s[1..])
  {
    if n < 0 then "-" + NatString(-n) else NatString(n)
  }

  /** The value of a (possibly empty) run of decimal digits, leading zeros allowed. */
  function DigitsValue(s: string): nat
    requires AllDigits(s)
  {
    if |s| == 0 then 0
    else DigitsValue(s[..|s| - 1]) * 10 + (s[|s| - 1] as int - '0' as int)
  }

  /**
   * `Integer.parseInt(s)` on ASCII digits: an optional sign, at least one
   * digit, and a value inside the `int` range; None stands for the
   * NumberFormatException it throws otherwise.
   */
  function ParseInt(s: string): (r: Option<int>)
    ensures r.Some? ==> IsInt32(r.value)
    ensures r.Some? ==> |s| >= 1 && (IsDigit(s[0]) || ((s[0] == '-' || s[0] == '+') && |s| >= 2))
    ensures r.Some? ==> AllDigits(if s[0] == '-' || s[0] == '+' then s[1..] else s)
  {
    var signed := |s| > 0 && (s[0] == '-' || s[0] == '+');
    var digits := if signed then s[1..] else s;
    if |digits| == 0 || !AllDigits(digits) then None
    else
      var v: int := if s[0] == '-' then -(DigitsValue(digits) as int) else DigitsValue(digits);
      if IsInt32(v) then Some(v) else None
  }

  lemma {:induction false} NatStringValue(n: nat)
    ensures DigitsValue(NatString(n)) == n
  {
    if n >= 10 {
      var s := NatString(n);
      assert s[..|s| - 1] == NatString(n / 10);
      NatStringValue(n / 10);
    }
  }

  /** A run of digits without a sign parses to its value when that is an `int`. */
  lemma ParseUnsigned(digits: string)
    requires |digits| >= 1 && AllDigits(digits) && IsInt32(DigitsValue(digits))
    ensures ParseInt(digits) == Some(DigitsValue(digits) as int)
  {
    assert IsDigit(digits[0]);
  }

  /** A minus sign followed by a run of digits parses to the negated value when that is an `int`. */
  lemma ParseNegative(digits: string)
    requires |digits| >= 1 && AllDigits(digits) && IsInt32(-(DigitsValue(digits) as int))
    ensures ParseInt("-" + digits) == Some(-(DigitsValue(digits) as int))
  {
    assert ("-" + digits)[1..] == digits;
  }

  /** A plus sign followed by a run of digits parses to the value of the digits when that is an `int`. */
  lemma ParsePositive(digits: string)
    requires |digits| >= 1 && AllDigits(digits) && IsInt32(DigitsValue(digits))
    ensures ParseInt("+" + digits) == Some(DigitsValue(digits) as int)
  {
    assert ("+" + digits)[1..] == digits;
  }

  /** `Integer.parseInt` undoes `String.valueOf` on every Java `int`. */
  lemma ParseDecimal(n: int)
    requires IsInt32(n)
    ensures ParseInt(DecimalString(n)) == Some(n)
  {
    if n < 0 {
      NatStringValue(-n);
      ParseNegative(NatString(-n));
    } else {
      NatStringValue(n);
      ParseUnsigned(NatString(n));
    }
  }

  /**
   * A run of digits parses exactly when its value fits in an `int`, and
   * then to that value; a larger value raises NumberFormatException.
   */
  lemma ParseIntRange(s: string)
    requires s != [] && AllDigits(s)
    ensures ParseInt(s).Some? <==> DigitsValue(s) <= Int32Max
    ensures ParseInt(s).Some? ==> ParseInt(s).value == DigitsValue(s)
  {
    assert IsDigit(s[0]);
  }

  /**
   * The decimal rendering of any integer parses back to it when it is an
   * `int`, and raises NumberFormatException when it is not.
   */
  lemma ParseDecimalTotal(n: int)
    ensures ParseInt(DecimalString(n)) == if IsInt32(n) then Some(n) else None
  {
    if IsInt32(n) {
      ParseDecimal(n);
    } else if n < 0 {
      NatStringValue(-n);
      assert DecimalString(n)[1..] == NatString(-n);
    } else {
      NatStringValue(n);
      ParseIntRange(NatString(n));
    }
  }

  /** Distinct Java `int`s have distinct decimal renderings. */
  lemma DecimalStringInjective(a: int, b: int)
    requires IsInt32(a) && IsInt32(b)
    ensures DecimalString(a) == DecimalString(b) <==> a == b
  {
    ParseDecimal(a);
    ParseDecimal(b);
  }

  /** The key of a chunk in the coordination maps: `fileId + chunkNo`. */
  function ChunkKey(fileId: string, chunkNo: int): (k: string)
    ensures |k| == |fileId| + |DecimalString(chunkNo)|
    ensures k[..|fileId|] == fileId && k[|fileId|..] == DecimalString(chunkNo)
  {
    fileId + DecimalString(chunkNo)
  }

  /**
   * For file ids of one length (the peers use fixed-length hash ids) the
   * key determines the chunk, so operations on different chunks use
   * different keys.
   */
  lemma ChunkKeyInjective(f1: string, n1: int, f2: string, n2: int)
    requires |f1| == |f2| && IsInt32(n1) && IsInt32(n2)
    ensures ChunkKey(f1, n1) == ChunkKey(f2, n2) <==> f1 == f2 && n1 == n2
  {
    if ChunkKey(f1, n1) == ChunkKey(f2, n2) {
      DecimalStringInjective(n1, n2);
    }
  }

  /** With ids of different lengths the concatenated key is ambiguous: chunk 2 of "a1" and chunk 12 of "a" share a key. */
  lemma ChunkKeyAmbiguousAcrossIdLengths()
    ensures ChunkKey("a1", 2) == ChunkKey("a", 12)
  {
    assert NatString(12) == NatString(1) + [DigitChar(2)];
  }
}
