/** Capacities such as `20gb`: a parser, a printer and an order on them. */
module ByteCapacities {
  import opened Arithmetic

  datatype Unit = KB | MB | GB | TB

  datatype ByteCapacity = ByteCapacity(bytes: int, input: string)

  datatype Result =
    | Ok(capacity: ByteCapacity)
    | CannotParse    // IllegalArgumentException
    | NumberFormat   // NumberFormatException, from the number alone

  const LONG_RANGE: int := 0x1_0000_0000_0000_0000
  const MAX_LONG: int := 0x7FFF_FFFF_FFFF_FFFF

  /** A Java long after overflow. */
  function ToLong(n: int): (w: int)
    ensures -0x8000_0000_0000_0000 <= w < 0x8000_0000_0000_0000 && (w - n) % 0x1_0000_0000_0000_0000 == 0
  {
    var m := n % LONG_RANGE;
    if m > MAX_LONG then m - LONG_RANGE else m
  }

  function Multiplier(u: Unit): nat {
    match u
    case KB => 1_000
    case MB => 1_000_000
    case GB => 1_000_000_000
    case TB => 1_000_000_000_000
  }

  // ---------- numerals ----------

  predicate IsDigit(c: char) { '0' <= c <= '9' }

  predicate AllDigits(s: string) { forall i :: 0 <= i < |s| ==> IsDigit(s[i]) }

  function Decimal(n: nat): string {
    if n < 10 then [('0' as int + n) as char] else Decimal(n / 10) + [('0' as int + n % 10) as char]
  }

  function Show(n: int): string {
    if n < 0 then "-" + Decimal(-n) else Decimal(n)
  }

  function Value(s: string): nat
    requires AllDigits(s)
  {
    if s == "" then 0 else 10 * Value(s[..|s| - 1]) + (s[|s| - 1] as int - '0' as int)
  }

  /** How many digits a text starts with. */
  function DigitRun(s: string): (n: nat)
    ensures n <= |s| && AllDigits(s[..n])
    ensures n < |s| ==> !IsDigit(s[n])
  {
    if s == "" || !IsDigit(s[0]) then 0
    else
      var n := DigitRun(s[1..]);
      assert s[..n + 1] == [s[0]] + s[1..][..n];
      n + 1
  }

  // ---------- the class ----------

  function B(bytes: int): ByteCapacity { ByteCapacity(bytes, Show(bytes)) }

  function Lower(c: char): char {
    if 'A' <= c <= 'Z' then (c as int + 32) as char else c
  }

  /** The units of the pattern, whatever their case. */
  function ParseUnit(s: string): (u: seq<Unit>)
    ensures |u| <= 1
    ensures u != [] ==> |s| == 2 && !IsDigit(s[0])
  {
    if |s| != 2 || Lower(s[1]) != 'b' then []
    else match Lower(s[0])
         case 'k' => [KB]
         case 'm' => [MB]
         case 'g' => [GB]
         case 't' => [TB]
         case _ => []
  }

  /** ByteCapacity.from. */
  function From(s: string): Result {
    var n := DigitRun(s);
    var unit := ParseUnit(s[n..]);
    if s[n..] != "" && unit == [] then CannotParse
    else if n == 0 || Value(s[..n]) > MAX_LONG then NumberFormat
    else if unit == [] then Ok(B(Value(s[..n])))
    else Ok(ByteCapacity(ToLong(Value(s[..n]) * Multiplier(unit[0])), s))
  }

  predicate Equals(a: ByteCapacity, b: ByteCapacity) { a.bytes == b.bytes }

  function CompareTo(a: ByteCapacity, b: ByteCapacity): int {
    if a.bytes < b.bytes then -1 else if a.bytes == b.bytes then 0 else 1
  }

  // ---------- properties ----------

  /** A text made of a numeral that fits a long, and of a suffix without a digit in front, splits there. */
  lemma {:induction false} SplitsAt(digits: string, suffix: string)
    requires AllDigits(digits) && (suffix == "" || !IsDigit(suffix[0]))
    ensures DigitRun(digits + suffix) == |digits|
    ensures (digits + suffix)[..|digits|] == digits && (digits + suffix)[|digits|..] == suffix
  {
    if digits == "" {
      assert digits + suffix == suffix;
    } else {
      assert (digits + suffix)[1..] == digits[1..] + suffix;
      SplitsAt(digits[1..], suffix);
    }
  }

  /** A product survives the conversion to long exactly when it fits. */
  lemma ToLongExact(n: nat)
    ensures ToLong(n) == n <==> n <= MAX_LONG
  {
    if n < LONG_RANGE {
      assert n % LONG_RANGE == n;
    }
  }

  /** from on a text already split. */
  lemma FromSplit(digits: string, suffix: string)
    requires AllDigits(digits) && (suffix == "" || !IsDigit(suffix[0]))
    ensures var u := ParseUnit(suffix);
            From(digits + suffix) ==
              if suffix != "" && u == [] then CannotParse
              else if digits == "" || Value(digits) > MAX_LONG then NumberFormat
              else if u == [] then Ok(B(Value(digits)))
              else Ok(ByteCapacity(ToLong(Value(digits) * Multiplier(u[0])), digits + suffix))
  {
    SplitsAt(digits, suffix);
  }

  lemma {:induction false} DecimalIs(n: nat)
    ensures AllDigits(Decimal(n)) && Value(Decimal(n)) == n
    ensures |Decimal(n)| == 1 || Decimal(n)[0] != '0'
    ensures |Decimal(n)| > 0 && (Decimal(n)[0] == '0' <==> n == 0)
  {
    var s := Decimal(n);
    if n >= 10 {
      DecimalIs(n / 10);
      assert s[..|s| - 1] == Decimal(n / 10);
    } else {
      assert s[..0] == "";
    }
  }

  lemma {:induction false} LeadingDigitCounts(s: string)
    requires AllDigits(s) && s != "" && s[0] != '0'
    ensures Value(s) > 0
  {
    if |s| > 1 {
      LeadingDigitCounts(s[..|s| - 1]);
    }
  }

  lemma OneDigit(s: string)
    requires AllDigits(s) && |s| == 1
    ensures Decimal(Value(s)) == s
  {
    assert s[..0] == "";
    assert Value(s) == s[0] as int - '0' as int;
  }

  lemma LastDigit(s: string)
    requires AllDigits(s) && |s| > 1 && Value(s[..|s| - 1]) > 0
    ensures Decimal(Value(s)) == Decimal(Value(s[..|s| - 1])) + [s[|s| - 1]]
  {
    DecimalSnoc(Value(s[..|s| - 1]), s[|s| - 1] as int - '0' as int);
  }

  lemma DecimalSnoc(n: nat, d: nat)
    requires n > 0 && d < 10
    ensures Decimal(10 * n + d) == Decimal(n) + [('0' as int + d) as char]
  {
    assert (10 * n + d) / 10 == n && (10 * n + d) % 10 == d;
  }

  /** The numerals that printing gives back: those without a useless leading zero. */
  lemma {:induction false} CanonicalNumerals(s: string)
    requires AllDigits(s) && s != ""
    ensures Decimal(Value(s)) == s <==> |s| == 1 || s[0] != '0'
  {
    if |s| == 1 {
      OneDigit(s);
    } else if s[0] == '0' {
      DecimalIs(Value(s));
    } else {
      var p := s[..|s| - 1];
      CanonicalNumerals(p);
      LeadingDigitCounts(p);
      LastDigit(s);
    }
  }

  /** Printing a number of bytes and parsing it gives the capacity back, exactly for the non-negative ones. */
  lemma PrintThenParse(n: int)
    requires -MAX_LONG - 1 <= n <= MAX_LONG
    ensures From(B(n).input) == Ok(B(n)) <==> n >= 0
    ensures n < 0 ==> From(B(n).input) == CannotParse
  {
    if n >= 0 {
      DecimalIs(n);
      SplitsAt(Decimal(n), "");
      assert Decimal(n) + "" == Decimal(n);
    } else {
      SplitsAt("", Show(n));
      assert "" + Show(n) == Show(n);
      assert Show(n)[0] == '-';
    }
  }

  /** How many bytes a split text stands for, on paper. */
  function Size(digits: string, suffix: string): nat
    requires AllDigits(digits)
  {
    if ParseUnit(suffix) == [] then Value(digits) else Value(digits) * Multiplier(ParseUnit(suffix)[0])
  }

  /**
   * The texts accepted are a numeral that fits a long, then nothing or a unit; toBytes is
   * the size exactly when that fits a long too, and toString is the text except when a
   * numeral without a unit has a useless leading zero.
   */
  lemma AcceptedTexts(digits: string, suffix: string)
    requires AllDigits(digits) && (suffix == "" || !IsDigit(suffix[0]))
    ensures var r := From(digits + suffix);
            && (r.Ok? <==> digits != "" && Value(digits) <= MAX_LONG && (suffix == "" || ParseUnit(suffix) != []))
            && (r.CannotParse? <==> suffix != "" && ParseUnit(suffix) == [])
            && (r.Ok? ==>
                 && (r.capacity.bytes == Size(digits, suffix) <==> Size(digits, suffix) <= MAX_LONG)
                 && (r.capacity.input == digits + suffix <==> suffix != "" || |digits| == 1 || digits[0] != '0'))
  {
    FromSplit(digits, suffix);
    ToLongExact(Size(digits, suffix));
    if suffix == "" && digits != "" {
      assert digits + suffix == digits;
      CanonicalNumerals(digits);
    }
  }

  /** Every text is of that form, so the lemma above covers every call. */
  lemma EveryTextSplits(s: string) returns (digits: string, suffix: string)
    ensures s == digits + suffix && AllDigits(digits) && (suffix == "" || !IsDigit(suffix[0]))
  {
    digits, suffix := s[..DigitRun(s)], s[DigitRun(s)..];
  }

  /** A capacity without a unit loses its leading zeros. */
  lemma LeadingZerosAreLost()
    ensures From("007") == Ok(B(7)) && B(7).input == "7"
  {
    SplitsAt("007", "");
    assert "007" + "" == "007";
    assert "007"[..2] == "00" && "00"[..1] == "0" && "0"[..0] == "";
  }

  lemma InKilobytes(n: nat)
    requires n <= MAX_LONG
    ensures From(Decimal(n) + "kb") == Ok(ByteCapacity(ToLong(1000 * n), Decimal(n) + "kb"))
  {
    DecimalIs(n);
    FromSplit(Decimal(n), "kb");
  }

  lemma KilobytesWrap() returns (n: nat)
    ensures n <= MAX_LONG < 1000 * n && ToLong(1000 * n) == -1000
  {
    n := MAX_LONG;
  }

  /** The largest long, in kilobytes, is accepted and stands for -1000 bytes. */
  lemma SizeWraps() returns (n: nat)
    ensures AllDigits(Decimal(n)) && Value(Decimal(n)) == n && 1000 * n > MAX_LONG
    ensures From(Decimal(n) + "kb") == Ok(ByteCapacity(-1000, Decimal(n) + "kb"))
  {
    n := KilobytesWrap();
    DecimalIs(n);
    InKilobytes(n);
  }

  lemma WithUnit(n: nat, suffix: string)
    requires suffix != "" && ParseUnit(suffix) != [] && n * Multiplier(ParseUnit(suffix)[0]) <= MAX_LONG
    ensures From(Decimal(n) + suffix)
         == Ok(ByteCapacity(n * Multiplier(ParseUnit(suffix)[0]), Decimal(n) + suffix))
  {
    DecimalIs(n);
    FromSplit(Decimal(n), suffix);
    ToLongExact(n * Multiplier(ParseUnit(suffix)[0]));
    assert n <= n * Multiplier(ParseUnit(suffix)[0]) by {
      Monotone(1, Multiplier(ParseUnit(suffix)[0]), n);
    }
  }

  /** The spellings of the four units. */
  lemma UnitNames(unit: string)
    ensures ParseUnit(unit) == [KB] <==> unit in {"kb", "kB", "Kb", "KB"}
    ensures ParseUnit(unit) == [MB] <==> unit in {"mb", "mB", "Mb", "MB"}
    ensures ParseUnit(unit) == [GB] <==> unit in {"gb", "gB", "Gb", "GB"}
    ensures ParseUnit(unit) == [TB] <==> unit in {"tb", "tB", "Tb", "TB"}
  {
    if |unit| == 2 {
      assert unit == [unit[0], unit[1]];
    }
  }

  lemma ThousandFold()
    ensures Multiplier(KB) == 1000 && Multiplier(MB) == 1000 * Multiplier(KB)
    ensures Multiplier(GB) == 1000 * Multiplier(MB) && Multiplier(TB) == 1000 * Multiplier(GB)
  {
  }

  /** What the units stand for. */
  lemma UnitSize(n: nat, unit: string, bytes: nat)
    requires (unit, bytes) in {("kb", 1_000), ("mb", 1_000_000), ("gb", 1_000_000_000), ("tb", 1_000_000_000_000)}
    requires n * bytes <= MAX_LONG
    ensures From(Decimal(n) + unit) == Ok(ByteCapacity(n * bytes, Decimal(n) + unit))
  {
    UnitNames(unit);
    ThousandFold();
    WithUnit(n, unit);
  }

  /** A negative number of bytes prints with its sign, and a number of several digits in decimal. */
  lemma Printed(n: nat, d: nat)
    requires n > 0 && d < 10
    ensures B(d).input == [('0' as int + d) as char]
    ensures B(10 * n + d).input == B(n).input + [('0' as int + d) as char]
    ensures B(0 - n).input == "-" + B(n).input
  {
    DecimalSnoc(n, d);
  }

  /** Two spellings of one capacity are equal and tie, although they print differently. */
  lemma SpellingsAgree(n: nat) returns (gb: ByteCapacity, mb: ByteCapacity)
    requires n * 1_000_000_000 <= MAX_LONG
    ensures From(Decimal(n) + "gb") == Ok(gb) && From(Decimal(1000 * n) + "MB") == Ok(mb)
    ensures gb.bytes == n * 1_000_000_000
    ensures Equals(gb, mb) && CompareTo(gb, mb) == 0 && gb.input != mb.input
  {
    WithUnit(n, "gb");
    gb := ByteCapacity(n * 1_000_000_000, Decimal(n) + "gb");
    assert gb.input[|gb.input| - 1] == 'b';
    mb := InMegabytes(1000 * n);
  }

  lemma InMegabytes(n: nat) returns (mb: ByteCapacity)
    requires n * 1_000_000 <= MAX_LONG
    ensures From(Decimal(n) + "MB") == Ok(mb) && mb.bytes == n * 1_000_000
    ensures mb.input != "" && mb.input[|mb.input| - 1] == 'B'
  {
    WithUnit(n, "MB");
    mb := ByteCapacity(n * 1_000_000, Decimal(n) + "MB");
  }

  /** compareTo is a total order, and ties exactly what equals equates. */
  lemma CompareToIsTotalOrder(a: ByteCapacity, b: ByteCapacity, c: ByteCapacity)
    ensures CompareTo(a, b) < 0 <==> a.bytes < b.bytes
    ensures CompareTo(a, b) == -CompareTo(b, a)
    ensures CompareTo(a, b) == 0 <==> Equals(a, b)
    ensures CompareTo(a, b) <= 0 && CompareTo(b, c) <= 0 ==> CompareTo(a, c) <= 0
  {
  }
}
