/**
  `_get_file_size`: the human-readable size that goes on the `Size:` line of a
  created or modified notification. The file-system queries are an input.
 */
module FileSize {

  /** What the file system answers for the event's path at the moment of the lookup. */
  datatype FileStat =
    | NotAFile         // `os.path.isfile` is false: a directory, or a path already gone
    | File(size: nat)  // a regular file of `size` bytes
    | StatError        // the lookup raised an exception

  const Units: seq<string> := ["B", "KB", "MB", "GB", "TB"]

  function Pow1024(k: nat): (p: nat)
    ensures p >= 1
  {
    if k == 0 then 1 else 1024 * Pow1024(k - 1)
  }

  lemma {:induction false} Pow1024Monotone(i: nat, j: nat)
    requires i <= j
    ensures Pow1024(i) <= Pow1024(j)
    decreases j
  {
    if i < j {
      Pow1024Monotone(i, j - 1);
    }
  }

  /**
    The unit `_get_file_size` settles on, as an index into `Units`: below the
    next power of 1024 and at or above its own, or TB for anything larger.
   */
  function UnitIndex(n: nat): (k: nat)
    ensures k < |Units|
    ensures k < |Units| - 1 ==> n < Pow1024(k + 1)
    ensures k > 0 ==> Pow1024(k) <= n
  {
    if n < Pow1024(1) then 0
    else if n < Pow1024(2) then 1
    else if n < Pow1024(3) then 2
    else if n < Pow1024(4) then 3
    else 4
  }

  /** The two threshold conditions single out one unit: the first one that fits. */
  lemma {:induction false} UnitIndexIsFirst(n: nat, k: nat)
    requires k < |Units|
    requires k < |Units| - 1 ==> n < Pow1024(k + 1)
    requires k > 0 ==> Pow1024(k) <= n
    ensures k == UnitIndex(n)
  {
    var u := UnitIndex(n);
    if k < u {
      Pow1024Monotone(k + 1, u);
    } else if u < k {
      Pow1024Monotone(u + 1, k);
    }
  }

  /** The number shown is the size in the chosen unit: at least 1 above bytes, below 1024 below TB. */
  lemma {:induction false} ScaledValueInRange(n: nat)
    ensures var k := UnitIndex(n);
            var v := n as real / Pow1024(k) as real;
            && v >= 0.0
            && (k < |Units| - 1 ==> v < 1024.0)
            && (k > 0 ==> v >= 1.0)
  {
    var k := UnitIndex(n);
    var p := Pow1024(k) as real;
    var v := n as real / p;
    assert v * p == n as real;
    if k < |Units| - 1 {
      assert n as real < 1024.0 * p;
    }
  }

  /** Round half to even, the rule Python's float formatting applies to an exact tie. */
  function RoundHalfEven(x: real): (q: nat)
    requires x >= 0.0
    ensures x - 0.5 <= q as real <= x + 0.5
    ensures (q as real == x - 0.5 || q as real == x + 0.5) ==> q % 2 == 0
  {
    var f := x.Floor;
    var frac := x - f as real;
    if frac > 0.5 || (frac == 0.5 && f % 2 == 1) then f + 1 else f
  }

  predicate IsDigit(c: char) { '0' <= c <= '9' }

  predicate AllDigits(s: string) {
    forall i :: 0 <= i < |s| ==> IsDigit(s[i])
  }

  function DigitChar(d: nat): (c: char)
    requires d < 10
    ensures IsDigit(c)
  {
    ('0' as int + d) as char
  }

  function DigitValue(c: char): nat
    requires IsDigit(c)
  {
    c as int - '0' as int
  }

  /** `str(n)` for a natural number: decimal digits without leading zeros. */
  function Decimal(n: nat): (s: string)
    ensures |s| >= 1 && AllDigits(s)
    ensures |s| > 1 ==> s[0] != '0'
  {
    if n < 10 then [DigitChar(n)] else Decimal(n / 10) + [DigitChar(n % 10)]
  }

  /** The number a string of decimal digits denotes. */
  function DecimalValue(s: string): nat
    requires AllDigits(s)
  {
    if |s| == 0 then 0 else 10 * DecimalValue(s[..|s| - 1]) + DigitValue(s[|s| - 1])
  }

  lemma {:induction false} DecimalValueAppend(s: string, c: char)
    requires AllDigits(s) && IsDigit(c)
    ensures AllDigits(s + [c]) && DecimalValue(s + [c]) == 10 * DecimalValue(s) + DigitValue(c)
  {
    assert (s + [c])[..|s|] == s;
  }

  /** Reading back the digits `Decimal` writes gives the number. */
  lemma {:induction false} DecimalRoundTrip(n: nat)
    ensures DecimalValue(Decimal(n)) == n
  {
    if n >= 10 {
      DecimalRoundTrip(n / 10);
      DecimalValueAppend(Decimal(n / 10), DigitChar(n % 10));
    }
  }

  /** `f"{x:.2f}"` for a non-negative number held exactly: whole part, point, two digits. */
  function Fixed2(x: real): (s: string)
    requires x >= 0.0
    ensures |s| >= 4 && s[|s| - 3] == '.'
    ensures AllDigits(s[..|s| - 3]) && AllDigits(s[|s| - 2..])
  {
    var q := RoundHalfEven(x * 100.0);
    Decimal(q / 100) + "." + [DigitChar(q / 10 % 10), DigitChar(q % 10)]
  }

  /**
    `Fixed2` writes a numeral with exactly two fractional digits whose value is
    the nearest hundredth to `x`.
   */
  lemma {:induction false} Fixed2Denotes(x: real)
    requires x >= 0.0
    ensures var s := Fixed2(x);
            && |s| >= 4 && s[|s| - 3] == '.'
            && AllDigits(s[..|s| - 3]) && AllDigits(s[|s| - 2..])
            && var hundredths := DecimalValue(s[..|s| - 3] + s[|s| - 2..]) as real;
               100.0 * x - 0.5 <= hundredths <= 100.0 * x + 0.5
  {
    var q := RoundHalfEven(x * 100.0);
    var whole := Decimal(q / 100);
    var digits := [DigitChar(q / 10 % 10), DigitChar(q % 10)];
    var s := Fixed2(x);
    assert s == whole + "." + digits;
    assert s[..|s| - 3] == whole;
    assert s[|s| - 2..] == digits;
    HundredthsRoundTrip(q);
  }

  /** The whole part followed by the two digits reads back as the number of hundredths. */
  lemma {:induction false} HundredthsRoundTrip(q: nat)
    ensures var s := Decimal(q / 100) + [DigitChar(q / 10 % 10), DigitChar(q % 10)];
            AllDigits(s) && DecimalValue(s) == q
  {
    var whole := Decimal(q / 100);
    var d1, d2 := DigitChar(q / 10 % 10), DigitChar(q % 10);
    DecimalRoundTrip(q / 100);
    DecimalValueAppend(whole, d1);
    DecimalValueAppend(whole + [d1], d2);
    assert whole + [d1, d2] == whole + [d1] + [d2];
    assert q / 10 == 10 * (q / 100) + q / 10 % 10;
    assert q == 10 * (q / 10) + q % 10;
  }

  /**
    The text `_get_file_size` returns, as a function of what the file system
    answers: one line, starting with a digit exactly when the path is a file.
   */
  function HumanSize(stat: FileStat): (text: string)
    ensures '\n' !in text
    ensures |text| > 0 && (IsDigit(text[0]) <==> stat.File?)
  {
    match stat
    case StatError => "Unknown"
    case NotAFile => "N/A (directory)"
    case File(n) =>
      var k := UnitIndex(n);
      var number := Fixed2(n as real / Pow1024(k) as real);
      assert forall i :: 0 <= i < |number| ==> IsDigit(number[i]) || number[i] == '.';
      number + " " + Units[k]
  }

  lemma DivideBy1024(x: real, p: real)
    requires p > 0.0
    ensures (x / p) / 1024.0 == x / (1024.0 * p)
  {
  }

  lemma BelowBy1024(x: real, p: real)
    requires p > 0.0
    ensures x / p < 1024.0 <==> x < 1024.0 * p
  {
    var v := x / p;
    assert v * p == x;
    if v < 1024.0 {
      assert v * p < 1024.0 * p;
    } else {
      assert v * p >= 1024.0 * p;
    }
  }

  /** One division by 1024 moves the running value one unit up. */
  lemma DivideStep(n: nat, k: nat, v: real)
    requires v == n as real / Pow1024(k) as real
    ensures v / 1024.0 == n as real / Pow1024(k + 1) as real
    ensures v < 1024.0 <==> n < Pow1024(k + 1)
  {
    var p := Pow1024(k) as real;
    assert Pow1024(k + 1) as real == 1024.0 * p;
    DivideBy1024(n as real, p);
    BelowBy1024(n as real, p);
  }

  /**
    `_get_file_size`: the sentinel texts for a lookup error and a non-file, and
    otherwise the size divided by 1024 until it drops below 1024 or the unit is TB.
   */
  method GetFileSize(stat: FileStat) returns (text: string)
    ensures text == HumanSize(stat)
  {
    match stat {
      case StatError =>
        text := "Unknown";
      case NotAFile =>
        text := "N/A (directory)";
      case File(n) =>
        var sizeBytes: real := n as real;
        var i := 0;
        while !(sizeBytes < 1024.0 || i == |Units| - 1)
          invariant 0 <= i < |Units|
          invariant sizeBytes == n as real / Pow1024(i) as real
          invariant i > 0 ==> Pow1024(i) <= n
        {
          DivideStep(n, i, sizeBytes);
          sizeBytes := sizeBytes / 1024.0;
          i := i + 1;
        }
        DivideStep(n, i, sizeBytes);
        UnitIndexIsFirst(n, i);
        text := Fixed2(sizeBytes) + " " + Units[i];
    }
  }

  /** No bytes at all: `0.00 B`. */
  lemma SizeOfEmptyFile()
    ensures HumanSize(File(0)) == "0.00 B"
  {
    assert UnitIndex(0) == 0;
    assert RoundHalfEven(0.0) == 0;
  }

  /** One and a half kilobytes: `1.50 KB`. */
  lemma SizeOfKilobyteAndAHalf()
    ensures HumanSize(File(1536)) == "1.50 KB"
  {
    assert UnitIndex(1536) == 1;
    assert 1536 as real / 1024.0 * 100.0 == 150.0;
    assert RoundHalfEven(150.0) == 150;
    assert Decimal(1) == "1";
  }

  /** Exactly one gigabyte: `1.00 GB`. */
  lemma SizeOfGigabyte()
    ensures HumanSize(File(1073741824)) == "1.00 GB"
  {
    assert Pow1024(1) == 1024;
    assert Pow1024(2) == 1048576;
    assert Pow1024(3) == 1073741824;
    assert Pow1024(4) == 1099511627776;
    assert UnitIndex(1073741824) == 3;
    assert 1073741824 as real / 1073741824 as real * 100.0 == 100.0;
    assert RoundHalfEven(100.0) == 100;
    assert Decimal(1) == "1";
  }
}
