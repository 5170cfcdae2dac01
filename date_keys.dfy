/** The string keys of the ledger: `getDateKey` renders a local date as
    `<year>-<MM>-<DD>`, the extended calendar-date form of ISO 8601 with a year
    written as `String(year)` gives it (no padding). */
module DateKeys {
  import opened Calendar

  datatype Option<T> = None | Some(value: T)

  predicate IsDigit(c: char) {
    '0' <= c <= '9'
  }

  predicate AllDigits(s: string) {
    forall i :: 0 <= i < |s| ==> IsDigit(s[i])
  }

  function DigitChar(n: int): (c: char)
    requires 0 <= n < 10
    ensures IsDigit(c)
  {
    ('0' as int + n) as char
  }

  function DigitValue(c: char): (n: int)
    requires IsDigit(c)
    ensures 0 <= n < 10
  {
    c as int - '0' as int
  }

  /** `String(n)` for a non-negative integer: its decimal digits, no leading zeros. */
  function NatToString(n: nat): (s: string)
    ensures 1 <= |s| && AllDigits(s)
    ensures s[0] == '0' ==> n == 0
  {
    if n < 10 then [DigitChar(n)] else NatToString(n / 10) + [DigitChar(n % 10)]
  }

  /** The value of a string of decimal digits. */
  function ParseNat(s: string): nat
    requires AllDigits(s)
  {
    if s == [] then 0 else ParseNat(s[..|s| - 1]) * 10 + DigitValue(s[|s| - 1])
  }

  /** `String(i)` for any integer: a minus sign before the digits of a negative one. */
  function IntToString(i: int): (s: string)
    ensures 1 <= |s| && AllDigits(s[1..]) && (IsDigit(s[0]) || s[0] == '-')
    ensures s[0] == '-' <==> i < 0
  {
    if i < 0 then "-" + NatToString(-i) else NatToString(i)
  }

  /** Reads back what `IntToString` writes; `None` for anything else. */
  function ParseInt(s: string): Option<int> {
    if |s| >= 2 && s[0] == '-' && AllDigits(s[1..]) then Some(-(ParseNat(s[1..]) as int))
    else if |s| >= 1 && AllDigits(s) then Some(ParseNat(s))
    else None
  }

  /** `s.padStart(2, '0')`. */
  function PadStart2(s: string): string {
    if |s| >= 2 then s else seq(2 - |s|, _ => '0') + s
  }

  /** `String(n).padStart(2, '0')`. */
  function Pad2(n: nat): string {
    PadStart2(NatToString(n))
  }

  /** `getDateKey`: `${year}-${month}-${day}` with the month (`getMonth() + 1`) and
      the day of the month padded to two digits and the year left as it is. Every
      key reads back as the date it was made from. */
  function DateKey(d: Date): (key: string)
    requires Valid(d)
    ensures ParseKey(key) == Some(d)
  {
    var key := IntToString(d.year) + "-" + Pad2(d.month) + "-" + Pad2(d.day);
    KeyRoundTrip(d, key);
    key
  }

  /** The `${year}-${monthKey}` prefix `calculateMonthlyStats` scans for. */
  function MonthPrefix(d: Date): string
    requires Valid(d)
  {
    IntToString(d.year) + "-" + Pad2(d.month)
  }

  /** `key.startsWith(prefix)`. */
  predicate StartsWith(key: string, prefix: string) {
    |prefix| <= |key| && key[..|prefix|] == prefix
  }

  /** Reads a date back from a key of the form `<year>-<MM>-<DD>`; `None` when the
      string has another shape or names no valid date. */
  function ParseKey(s: string): (r: Option<Date>)
    ensures r.Some? ==> Valid(r.value)
  {
    if |s| < 7 then None
    else
      var n := |s|;
      var year := ParseInt(s[..n - 6]);
      var mm, dd := s[n - 5..n - 3], s[n - 2..];
      if year.Some? && s[n - 6] == '-' && s[n - 3] == '-' && AllDigits(mm) && AllDigits(dd) then
        var d := Date(year.value, ParseNat(mm), ParseNat(dd));
        if Valid(d) then Some(d) else None
      else None
  }

  // ---------------------------------------------------------------------------
  // Round trips

  lemma {:induction false} NatRoundTrip(n: nat)
    ensures ParseNat(NatToString(n)) == n
  {
    var s := NatToString(n);
    if n >= 10 {
      NatRoundTrip(n / 10);
      assert s[..|s| - 1] == NatToString(n / 10);
    }
  }

  lemma IntRoundTrip(i: int)
    ensures ParseInt(IntToString(i)) == Some(i)
  {
    if i < 0 {
      var digits := NatToString(-i);
      NatRoundTrip(-i);
      assert ("-" + digits)[1..] == digits;
    } else {
      NatRoundTrip(i);
    }
  }

  /** A month or day of the month pads to exactly two digits that read back as itself. */
  lemma Pad2RoundTrip(n: nat)
    requires 1 <= n <= 99
    ensures |Pad2(n)| == 2 && AllDigits(Pad2(n)) && ParseNat(Pad2(n)) == n
  {
    NatRoundTrip(n);
    if n < 10 {
      assert Pad2(n) == ['0', DigitChar(n)];
      assert Pad2(n)[..1] == ['0'];
    } else {
      assert NatToString(n) == [DigitChar(n / 10), DigitChar(n % 10)];
    }
  }

  /** The year, month and day of a date, written out and joined by dashes, read
      back as that date. */
  lemma KeyRoundTrip(d: Date, s: string)
    requires Valid(d)
    requires s == IntToString(d.year) + "-" + Pad2(d.month) + "-" + Pad2(d.day)
    ensures ParseKey(s) == Some(d)
  {
    var y, mm, dd := IntToString(d.year), Pad2(d.month), Pad2(d.day);
    Pad2RoundTrip(d.month);
    Pad2RoundTrip(d.day);
    IntRoundTrip(d.year);
    var n := |s|;
    assert n == |y| + 6;
    assert s[..n - 6] == y;
    assert s[n - 5..n - 3] == mm;
    assert s[n - 2..] == dd;
  }

  /** Distinct dates have distinct keys. */
  lemma DateKeyInjective(a: Date, b: Date)
    requires Valid(a) && Valid(b)
    requires DateKey(a) == DateKey(b)
    ensures a == b
  {
  }

  /** A date key is the year (its characters after the first are digits), a dash,
      two digits, a dash and two digits. */
  lemma KeyShape(d: Date)
    requires Valid(d)
    ensures var n := |IntToString(d.year)|; var key := DateKey(d);
      |key| == n + 6 && key[n] == '-' && key[n + 3] == '-' &&
      IsDigit(key[n + 1]) && IsDigit(key[n + 2]) && IsDigit(key[n + 4]) && IsDigit(key[n + 5]) &&
      forall i :: 1 <= i < n ==> IsDigit(key[i])
  {
    var y := IntToString(d.year);
    Pad2RoundTrip(d.month);
    Pad2RoundTrip(d.day);
    var key := DateKey(d);
    assert key[|y| + 1..|y| + 3] == Pad2(d.month);
    assert key[|y| + 4..] == Pad2(d.day);
    forall i | 1 <= i < |y|
      ensures IsDigit(DateKey(d)[i])
    {
      assert DateKey(d)[i] == y[1..][i - 1];
    }
  }

  /** A month prefix that a date key starts with has a year of the same length:
      a shorter year would put its dash against a digit of the longer one. */
  lemma PrefixYearLength(anchor: Date, d: Date)
    requires Valid(anchor) && Valid(d)
    requires StartsWith(DateKey(d), MonthPrefix(anchor))
    ensures |IntToString(d.year)| == |IntToString(anchor.year)|
  {
    var y, ya := IntToString(d.year), IntToString(anchor.year);
    KeyShape(d);
    KeyShape(anchor);
    assert MonthPrefix(anchor) == DateKey(anchor)[..|ya| + 3];
    if |ya| < |y| {
      assert false;
    } else if |y| < |ya| {
      assert false;
    }
  }

  /** A date key starts with the month prefix of a date exactly when the two dates
      are in the same month of the same year. */
  lemma MonthPrefixIff(anchor: Date, d: Date)
    requires Valid(anchor) && Valid(d)
    ensures StartsWith(DateKey(d), MonthPrefix(anchor)) <==>
      d.year == anchor.year && d.month == anchor.month
  {
    var key, prefix := DateKey(d), MonthPrefix(anchor);
    var y, ya := IntToString(d.year), IntToString(anchor.year);
    Pad2RoundTrip(d.month);
    Pad2RoundTrip(anchor.month);
    if StartsWith(key, prefix) {
      PrefixYearLength(anchor, d);
      assert y == key[..|y|] == prefix[..|ya|] == ya;
      IntRoundTrip(d.year);
      IntRoundTrip(anchor.year);
      assert key[|y| + 1..|y| + 3] == Pad2(d.month);
      assert prefix[|ya| + 1..|ya| + 3] == Pad2(anchor.month);
      assert key[|y| + 1..|y| + 3] == key[..|prefix|][|ya| + 1..|ya| + 3];
    }
    if d.year == anchor.year && d.month == anchor.month {
      assert key[..|prefix|] == prefix;
    }
  }

  /** `getDateKey(2024-03-05)` is `"2024-03-05"`. */
  lemma KeyOfMarch5()
    ensures DateKey(Date(2024, 3, 5)) == "2024-03-05"
  {
    assert NatToString(2024) == "2024" by {
      assert NatToString(202) == "202" by {
        assert NatToString(20) == "20";
      }
    }
  }
}
