/** Work-order numbers: `WO-<year>-<sequence value>`, at least six digits, never truncated. */
module Numbers {

  function Digit(d: nat): char
    requires d < 10
  {
    '0' + d as char
  }

  function DigitValue(c: char): nat {
    if '0' <= c <= '9' then (c - '0') as int else 0
  }

  /** The text form of a nonnegative bigint. */
  function Decimal(n: nat): string {
    if n < 10 then [Digit(n)] else Decimal(n / 10) + [Digit(n % 10)]
  }

  function Value(s: string): nat {
    if s == "" then 0 else 10 * Value(s[..|s| - 1]) + DigitValue(s[|s| - 1])
  }

  function Zeros(k: nat): string {
    seq(k, i => '0')
  }

  /** SQL `lpad(s, width, '0')`, which cuts a longer text down to `width`. */
  function Lpad(s: string, width: nat): string {
    if width <= |s| then s[..width] else Zeros(width - |s|) + s
  }

  function Greatest(a: nat, b: nat): nat {
    if a < b then b else a
  }

  function Format(year: nat, n: nat): string {
    "WO-" + Lpad(Decimal(year), 4) + "-" + Lpad(Decimal(n), Greatest(6, |Decimal(n)|))
  }

  /** Reading a number back. */
  function SequenceOf(number: string): nat {
    if |number| < 8 then 0 else Value(number[8..])
  }

  function YearOf(number: string): nat {
    if |number| < 8 then 0 else Value(number[3..7])
  }

  ghost predicate AllDigits(s: string) {
    forall i :: 0 <= i < |s| ==> '0' <= s[i] <= '9'
  }

  /** The pattern of the table's check: `^WO-[0-9]{4}-[0-9]{6,}$`. */
  ghost predicate MatchesPattern(number: string) {
    && 14 <= |number|
    && number[..3] == "WO-"
    && AllDigits(number[3..7])
    && number[7] == '-'
    && AllDigits(number[8..])
  }

  lemma {:induction false} DecimalReadsBack(n: nat)
    ensures Value(Decimal(n)) == n
    ensures AllDigits(Decimal(n)) && 1 <= |Decimal(n)|
  {
    if n < 10 {
      assert Decimal(n)[..0] == "";
    } else {
      DecimalReadsBack(n / 10);
      assert Decimal(n)[..|Decimal(n)| - 1] == Decimal(n / 10);
    }
  }

  lemma {:induction false} DecimalWidth(n: nat, w: nat, bound: nat)
    requires 1 <= w && bound == Power10(w) && n < bound
    ensures |Decimal(n)| <= w
  {
    if 10 <= n {
      assert bound == 10 * Power10(w - 1);
      assert Power10(0) == 1;
      DecimalWidth(n / 10, w - 1, Power10(w - 1));
    }
  }

  function Power10(w: nat): nat {
    if w == 0 then 1 else 10 * Power10(w - 1)
  }

  lemma {:induction false} LeadingZeros(k: nat, s: string)
    ensures Value(Zeros(k) + s) == Value(s)
    decreases |s|, k
  {
    if s == "" {
      if 0 < k {
        assert (Zeros(k) + s)[..k - 1] == Zeros(k - 1) + "";
        LeadingZeros(k - 1, "");
      } else {
        assert Zeros(k) + s == "";
      }
    } else {
      assert (Zeros(k) + s)[..k + |s| - 1] == Zeros(k) + s[..|s| - 1];
      LeadingZeros(k, s[..|s| - 1]);
    }
  }

  lemma PaddedReadsBack(n: nat, width: nat)
    requires |Decimal(n)| <= width
    ensures Value(Lpad(Decimal(n), width)) == n
    ensures AllDigits(Lpad(Decimal(n), width)) && |Lpad(Decimal(n), width)| == width
  {
    var s := Decimal(n);
    DecimalReadsBack(n);
    LeadingZeros(width - |s|, s);
    assert Lpad(s, width) == Zeros(width - |s|) + s;
  }

  lemma Parts(y: string, d: string)
    requires |y| == 4
    ensures
      var number := "WO-" + y + "-" + d;
      number[..3] == "WO-" && number[3..7] == y && number[7] == '-' && number[8..] == d
  {
  }

  /** A printed number gives back its year and its sequence value, whatever their size allows. */
  lemma NumberReadsBack(year: nat, n: nat)
    requires year < 10000
    ensures SequenceOf(Format(year, n)) == n && YearOf(Format(year, n)) == year
    ensures MatchesPattern(Format(year, n))
    ensures |Format(year, n)| == 8 + Greatest(6, |Decimal(n)|)
  {
    assert Power10(4) == 10000;
    DecimalWidth(year, 4, 10000);
    PaddedReadsBack(year, 4);
    PaddedReadsBack(n, Greatest(6, |Decimal(n)|));
    Parts(Lpad(Decimal(year), 4), Lpad(Decimal(n), Greatest(6, |Decimal(n)|)));
    hide Decimal, Lpad, Value;
  }

  /** Distinct sequence values print differently in any two years, also beyond 999999. */
  lemma NumbersDistinct(year1: nat, n1: nat, year2: nat, n2: nat)
    requires year1 < 10000 && year2 < 10000
    ensures Format(year1, n1) == Format(year2, n2) <==> year1 == year2 && n1 == n2
  {
    NumberReadsBack(year1, n1);
    NumberReadsBack(year2, n2);
  }
}
