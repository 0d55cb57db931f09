/**
 * The output file of a run: its name (line 135), its lines (header,
 * detail rows, summary trailer) and the five summary counters
 * (lines 22-26, written in the trailer on lines 303-306).
 */
module Output {
  import opened Records

  /**
   * The summary counters: flows examined, flows at or below the loss
   * threshold per direction, flows above it (and long enough) per direction.
   */
  datatype Tally = Tally(count: int, s2cLe: int, c2sLe: int, s2cG: int, c2sG: int)

  const NoFlows: Tally := Tally(0, 0, 0, 0, 0)

  /** A line of the CSV file. The trailer's wording and its elapsed time are not modelled. */
  datatype Line =
    | HeaderLine(names: seq<string>)
    | DetailLine(cells: seq<Cell>)
    | SummaryLine(totals: Tally, minCallDurationMs: int)

  /** A detail line with one cell per header column. */
  predicate IsDetail(l: Line)
  {
    l.DetailLine? && |l.cells| == |Header|
  }

  predicate IsDigit(c: char)
  {
    '0' <= c <= '9'
  }

  predicate AllDigits(s: string)
  {
    forall i :: 0 <= i < |s| ==> IsDigit(s[i])
  }

  function DigitChar(d: nat): (c: char)
    requires d < 10
    ensures IsDigit(c) && c as int - '0' as int == d
  {
    ('0' as int + d) as char
  }

  /** Decimal digits of a natural number, without leading zeros. */
  function DigitString(n: nat): (s: string)
    ensures |s| >= 1 && AllDigits(s)
    ensures n >= 10 ==> s[0] != '0'
    decreases n
  {
    if n < 10 then [DigitChar(n)] else DigitString(n / 10) + [DigitChar(n % 10)]
  }

  /** Python's `str` of an int. */
  function IntString(n: int): string
  {
    if n < 0 then "-" + DigitString(-n) else DigitString(n)
  }

  /** Value of a string of decimal digits. */
  function DigitsValue(s: string): nat
    requires AllDigits(s)
  {
    if s == [] then 0 else DigitsValue(s[..|s| - 1]) * 10 + (s[|s| - 1] as int - '0' as int)
  }

  predicate IsNumeral(s: string)
  {
    if |s| > 0 && s[0] == '-' then AllDigits(s[1..]) else AllDigits(s)
  }

  /** Reads back what `IntString` writes. */
  function ParseInt(s: string): int
    requires IsNumeral(s)
  {
    if |s| > 0 && s[0] == '-' then 0 - DigitsValue(s[1..]) as int else DigitsValue(s)
  }

  lemma {:induction false} DigitsRoundTrip(n: nat)
    ensures DigitsValue(DigitString(n)) == n
    decreases n
  {
    if n >= 10 {
      DigitsRoundTrip(n / 10);
      var s := DigitString(n);
      assert s[..|s| - 1] == DigitString(n / 10);
    }
  }

  lemma IntStringRoundTrip(n: int)
    ensures IsNumeral(IntString(n)) && ParseInt(IntString(n)) == n
  {
    if n < 0 {
      DigitsRoundTrip(-n);
      assert IntString(n)[1..] == DigitString(-n);
    } else {
      DigitsRoundTrip(n);
    }
  }

  /** `<site>.<app>.flowresults.<epoch>.csv`, as on line 135. */
  function FileName(siteName: string, appName: string, epoch: int): string
  {
    siteName + "." + appName + ".flowresults." + IntString(epoch) + ".csv"
  }

  /** For a given site and application, the file name tells runs with different epochs apart. */
  lemma FileNameIdentifiesRun(siteName: string, appName: string, e1: int, e2: int)
    requires FileName(siteName, appName, e1) == FileName(siteName, appName, e2)
    ensures e1 == e2
  {
    var prefix := siteName + "." + appName + ".flowresults.";
    var n1, n2 := FileName(siteName, appName, e1), FileName(siteName, appName, e2);
    assert n1 == prefix + IntString(e1) + ".csv";
    assert n2 == prefix + IntString(e2) + ".csv";
    assert IntString(e1) == n1[|prefix|..|n1| - 4];
    assert IntString(e2) == n2[|prefix|..|n2| - 4];
    IntStringRoundTrip(e1);
    IntStringRoundTrip(e2);
  }
}
