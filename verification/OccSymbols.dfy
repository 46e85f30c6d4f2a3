/** OCC option symbols (data_service.py): printing, tail-slicing and what survives the trip. */
module OccSymbols {
  import opened Prelude

  datatype Date = Date(year: int, month: int, day: int)

  datatype Contract = Contract(ticker: string, expiration: Date, call: bool, strike: real)

  // ---- Decimal digits -------------------------------------------------------------------

  function Digit(n: int): char
    requires 0 <= n < 10
  {
    ('0' as int + n) as char
  }

  predicate IsDigit(c: char) {
    '0' <= c <= '9'
  }

  /** Decimal notation, zero-padded to the width. */
  function Decimal(n: nat, width: nat): string {
    if n < 10 && width <= 1 then [Digit(n)]
    else Decimal(n / 10, if width > 0 then width - 1 else 0) + [Digit(n % 10)]
  }

  predicate AllDigits(s: string) {
    forall i | 0 <= i < |s| :: IsDigit(s[i])
  }

  function Value(s: string): (n: nat)
    requires AllDigits(s)
  {
    if s == "" then 0 else Value(s[..|s| - 1]) * 10 + (s[|s| - 1] as int - '0' as int)
  }

  function Pow10(k: nat): (n: nat)
    ensures n > 0
  {
    if k == 0 then 1 else 10 * Pow10(k - 1)
  }

  lemma {:induction false} DecimalIsRead(n: nat, width: nat)
    ensures AllDigits(Decimal(n, width)) && Value(Decimal(n, width)) == n
  {
    if n >= 10 || width > 1 {
      var head := Decimal(n / 10, if width > 0 then width - 1 else 0);
      DecimalIsRead(n / 10, if width > 0 then width - 1 else 0);
      assert Decimal(n, width)[..|head|] == head;
    }
  }

  /** Padding holds the width exactly as long as the number fits. */
  lemma {:induction false} DecimalFits(n: nat, width: nat)
    requires width >= 1
    ensures |Decimal(n, width)| == width <==> n < Pow10(width)
    ensures |Decimal(n, width)| >= width
  {
    if width > 1 {
      DecimalFits(n / 10, width - 1);
    } else if n >= 10 {
      DecimalIsNotEmpty(n / 10);
    }
  }

  lemma DecimalIsNotEmpty(n: nat)
    ensures |Decimal(n, 0)| >= 1
  {}

  lemma LastDigit(head: nat, d: int)
    requires 0 <= d < 10
    ensures (head * 10 + d) / 10 == head && (head * 10 + d) % 10 == d
  {}

  lemma {:induction false} ReadIsPrinted(s: string)
    requires AllDigits(s) && |s| >= 1
    ensures Decimal(Value(s), |s|) == s
  {
    var head, c := s[..|s| - 1], s[|s| - 1];
    var d := c as int - '0' as int;
    assert Digit(d) == c;
    LastDigit(Value(head), d);
    if |s| == 1 {
      assert Value(s) == d;
    } else {
      ReadIsPrinted(head);
      assert s == head + [c];
    }
  }

  lemma {:induction false} ValueIsBounded(s: string)
    requires AllDigits(s)
    ensures Value(s) < Pow10(|s|)
  {
    if s != "" {
      ValueIsBounded(s[..|s| - 1]);
    }
  }

  // ---- Dates ------------------------------------------------------------------------------

  predicate LeapYear(y: int) {
    y % 4 == 0 && (y % 100 != 0 || y % 400 == 0)
  }

  function DaysIn(year: int, month: int): int {
    if month == 2 then (if LeapYear(year) then 29 else 28)
    else if month in {4, 6, 9, 11} then 30
    else 31
  }

  predicate ValidDate(d: Date) {
    1 <= d.year <= 9999 && 1 <= d.month <= 12 && 1 <= d.day <= DaysIn(d.year, d.month)
  }

  /** strptime's %y: 69-99 are 1969-1999, 00-68 are 2000-2068. */
  function FullYear(yy: int): int {
    if yy >= 69 then 1900 + yy else 2000 + yy
  }

  function PrintDate(d: Date): (s: string)
    requires ValidDate(d)
    ensures |s| == 6
  {
    TwoPlaces(d.year % 100); TwoPlaces(d.month); TwoPlaces(d.day);
    Decimal(d.year % 100, 2) + Decimal(d.month, 2) + Decimal(d.day, 2)
  }

  lemma TwoPlaces(n: nat)
    requires n < 100
    ensures Decimal(n, 2) == [Digit(n / 10), Digit(n % 10)]
    ensures AllDigits(Decimal(n, 2)) && Value(Decimal(n, 2)) == n
  {
    DecimalIsRead(n, 2);
    assert Decimal(n / 10, 1) == [Digit(n / 10)];
  }

  predicate IsPositiveDigit(c: char) {
    '1' <= c <= '9'
  }

  /** How much of s strptime's %d takes: the first of 3[01], [12]x, 0[1-9], [1-9] and a blank with
      [1-9] that s begins with; 0 if none. */
  function DayLength(s: string): (n: nat)
    ensures n <= |s| && n <= 2
  {
    if |s| >= 2 && s[0] == '3' && (s[1] == '0' || s[1] == '1') then 2
    else if |s| >= 2 && (s[0] == '1' || s[0] == '2') && IsDigit(s[1]) then 2
    else if |s| >= 2 && s[0] == '0' && IsPositiveDigit(s[1]) then 2
    else if |s| >= 1 && IsPositiveDigit(s[0]) then 1
    else if |s| >= 2 && s[0] == ' ' && IsPositiveDigit(s[1]) then 2
    else 0
  }

  predicate TwoDigitMonth(s: string) {
    && |s| >= 2
    && ((s[0] == '1' && '0' <= s[1] <= '2') || (s[0] == '0' && IsPositiveDigit(s[1])))
  }

  /** How much of s strptime's %m takes when a %d follows; 0 if the two do not match. */
  function MonthLength(s: string): (n: nat)
    ensures n <= |s| && n <= 2
  {
    if TwoDigitMonth(s) && DayLength(s[2..]) > 0 then 2
    else if |s| >= 1 && IsPositiveDigit(s[0]) && DayLength(s[1..]) > 0 then 1
    else 0
  }

  /** strptime's %y%m%d on a whole string: it takes a one-digit month or day, and a blank before
      the day's one digit, as long as nothing is left over. */
  function ParseDate(s: string): Option<Date> {
    if |s| < 2 || !IsDigit(s[0]) || !IsDigit(s[1]) then None
    else
      var m := MonthLength(s[2..]);
      var d := DayLength(s[2 + m..]);
      if m == 0 || 2 + m + d != |s| then None
      else
        var date := Date(FullYear(Number(s[..2])), Number(s[2..2 + m]), Number(s[2 + m..]));
        if ValidDate(date) then Some(date) else None
  }

  /** int() on one or two characters that strptime matched. */
  function Number(s: string): int {
    if AllDigits(s) then Value(s) else if s != "" && AllDigits(s[1..]) then Value(s[1..]) else 0
  }

  // ---- Strikes ----------------------------------------------------------------------------

  /** The format 08d. */
  function PrintMilli(n: int): string {
    if n >= 0 then Decimal(n, 8) else "-" + Decimal(-n, 7)
  }

  /** int() on a string of digits with an optional sign. */
  function ParseInt(s: string): Option<int> {
    if s == "" then None
    else if s[0] == '-' || s[0] == '+' then
      if |s| == 1 || !AllDigits(s[1..]) then None
      else
        var n: int := Value(s[1..]);
        Some(if s[0] == '-' then -n else n)
    else if AllDigits(s) then Some(Value(s)) else None
  }

  // ---- Symbols ----------------------------------------------------------------------------

  function UpperChar(c: char): char {
    if 'a' <= c <= 'z' then (c as int - 32) as char else c
  }

  function Upper(s: string): string {
    seq(|s|, i requires 0 <= i < |s| => UpperChar(s[i]))
  }

  function Milli(strike: real): int {
    HalfEven(strike * 1000.0)
  }

  function Build(c: Contract): string
    requires ValidDate(c.expiration)
  {
    Upper(c.ticker) + PrintDate(c.expiration) + (if c.call then "C" else "P") + PrintMilli(Milli(c.strike))
  }

  /** The eight strike places. */
  function Tail(s: string): string
    requires |s| >= 8
  {
    s[|s| - 8..]
  }

  /** Where the date begins: Python's slice s[-15:-9] begins at 0 when s is shorter than 15. */
  function DateStart(s: string): nat {
    if |s| >= 15 then |s| - 15 else 0
  }

  function Parse(s: string): Result<Contract> {
    if |s| < 9 then Err(ValueError)
    else
      var milli := ParseInt(Tail(s));
      var cp := s[|s| - 9];
      var date := ParseDate(s[DateStart(s)..|s| - 9]);
      if milli.None? || date.None? then Err(ValueError)
      else Ok(Contract(s[..DateStart(s)], date.value, cp == 'C' || cp == 'c', milli.value as real / 1000.0))
  }

  /** _underlying_from_occ. */
  function Underlying(s: string): string {
    if |s| < 16 then s else s[..|s| - 15]
  }

  // ---- Round trips --------------------------------------------------------------------------

  lemma TwoDigitDay(day: int)
    requires 1 <= day <= 31
    ensures DayLength(Decimal(day, 2)) == 2
  {
    TwoPlaces(day);
  }

  lemma MonthThenDay(mm: string, dd: string)
    requires |mm| == 2 && TwoDigitMonth(mm) && DayLength(dd) == |dd| > 0
    ensures MonthLength(mm + dd) == 2
  {
    assert (mm + dd)[..2] == mm && (mm + dd)[2..] == dd;
  }

  /** A date that is known piece by piece, the month in two digits. */
  lemma DatePieces(yy: string, mm: string, dd: string)
    requires |yy| == 2 && |mm| == 2 && AllDigits(yy + mm + dd)
    requires TwoDigitMonth(mm) && DayLength(dd) == |dd| > 0
    ensures AllDigits(yy) && AllDigits(mm) && AllDigits(dd)
    ensures var date := Date(FullYear(Value(yy)), Value(mm), Value(dd));
            ParseDate(yy + mm + dd) == if ValidDate(date) then Some(date) else None
  {
    var s := yy + mm + dd;
    assert s[..2] == yy && s[2..4] == mm && s[4..] == dd && s[2..] == mm + dd;
    assert s[0] == yy[0] && s[1] == yy[1];
    assert AllDigits(s[..2]) && AllDigits(s[2..4]) && AllDigits(s[4..]);
    MonthThenDay(mm, dd);
  }

  lemma TwoDigitsOfMonth(month: int)
    requires 1 <= month <= 12
    ensures TwoDigitMonth(Decimal(month, 2))
  {
    TwoPlaces(month);
  }

  lemma DateTrip(d: Date)
    requires ValidDate(d)
    ensures ParseDate(PrintDate(d)) == Some(d) <==> 1969 <= d.year <= 2068
  {
    TwoPlaces(d.year % 100); TwoPlaces(d.month); TwoPlaces(d.day);
    TwoDigitsOfMonth(d.month);
    TwoDigitDay(d.day);
    DatePieces(Decimal(d.year % 100, 2), Decimal(d.month, 2), Decimal(d.day, 2));
    FullYearIff(d.year);
  }

  lemma FullYearIff(year: int)
    ensures FullYear(year % 100) == year <==> 1969 <= year <= 2068
    ensures 1969 <= FullYear(year % 100) <= 2068
  {}

  /** Two places of a string as a number. */
  predicate Reads(s: string, at: nat, n: int)
    requires at + 2 <= |s|
  {
    IsDigit(s[at]) && IsDigit(s[at + 1]) && (s[at] as int - 48) * 10 + (s[at + 1] as int - 48) == n
  }

  lemma DateLayout(d: Date)
    requires ValidDate(d)
    ensures Reads(PrintDate(d), 0, d.year % 100) && Reads(PrintDate(d), 2, d.month) && Reads(PrintDate(d), 4, d.day)
  {
    TwoPlaces(d.year % 100); TwoPlaces(d.month); TwoPlaces(d.day);
  }

  lemma SymbolPieces(c: Contract)
    requires ValidDate(c.expiration)
    ensures var s, n := Build(c), |c.ticker|;
            && |s| >= n + 15 && s[..n] == Upper(c.ticker) && s[n..n + 6] == PrintDate(c.expiration)
            && s[n + 6] == (if c.call then 'C' else 'P') && s[n + 7..] == PrintMilli(Milli(c.strike))
  {
    MilliFits(Milli(c.strike));
  }

  /** The layout of a symbol: the upper-case ticker, two places each for year, month and day, one letter,
      and the strike in thousandths, to the nearest one. */
  lemma SymbolLayout(c: Contract)
    requires ValidDate(c.expiration)
    ensures var s, n := Build(c), |c.ticker|;
            && |s| >= n + 15
            && (forall i | 0 <= i < n ::
                  s[i] == if 'a' <= c.ticker[i] <= 'z' then (c.ticker[i] as int - 32) as char else c.ticker[i])
            && Reads(s[n..], 0, c.expiration.year % 100) && Reads(s[n..], 2, c.expiration.month)
            && Reads(s[n..], 4, c.expiration.day)
            && s[n + 6] == (if c.call then 'C' else 'P')
            && (c.strike >= 0.0 ==>
                  AllDigits(s[n + 7..]) && -0.5 <= Value(s[n + 7..]) as real - c.strike * 1000.0 <= 0.5)
  {
    var s, n, milli := Build(c), |c.ticker|, Milli(c.strike);
    SymbolPieces(c);
    DateLayout(c.expiration);
    assert forall i | 0 <= i < n :: s[i] == s[..n][i];
    assert forall i | 0 <= i < 6 :: s[n..][i] == s[n..n + 6][i];
    if c.strike >= 0.0 {
      PrintedDigits(milli, 8);
    }
  }

  predicate FitsEightPlaces(n: int) {
    -10_000_000 < n < 100_000_000
  }

  lemma PowersOfTen()
    ensures Pow10(2) == 100 && Pow10(7) == 10_000_000 && Pow10(8) == 100_000_000
  {
    assert Pow10(4) == 10_000;
    assert Pow10(6) == 1_000_000;
  }

  /** The padded digits, their length and their value. */
  lemma PrintedDigits(n: nat, width: nat)
    requires width >= 1
    ensures var d := Decimal(n, width);
            AllDigits(d) && Value(d) == n && |d| >= width && (|d| == width <==> n < Pow10(width))
  {
    DecimalIsRead(n, width);
    DecimalFits(n, width);
  }

  lemma MilliFits(n: int)
    ensures |PrintMilli(n)| >= 8
    ensures |PrintMilli(n)| == 8 <==> FitsEightPlaces(n)
  {
    PowersOfTen();
    if n >= 0 {
      PrintedDigits(n, 8);
    } else {
      PrintedDigits(-n, 7);
    }
  }

  lemma SignedIsRead(digits: string)
    requires AllDigits(digits) && digits != ""
    ensures ParseInt(digits) == Some(Value(digits))
    ensures ParseInt("-" + digits).Some? && ParseInt("-" + digits).value == -(Value(digits) as int)
  {
    assert IsDigit(digits[0]);
    assert ("-" + digits)[1..] == digits;
  }

  lemma SignedTrip(n: nat, width: nat)
    requires width >= 1
    ensures ParseInt(Decimal(n, width)) == Some(n)
    ensures ParseInt("-" + Decimal(n, width)).Some? && ParseInt("-" + Decimal(n, width)).value == -(n as int)
  {
    PrintedDigits(n, width);
    SignedIsRead(Decimal(n, width));
  }

  lemma MilliIsRead(n: int)
    ensures ParseInt(PrintMilli(n)) == Some(n)
  {
    if n >= 0 {
      SignedTrip(n, 8);
    } else {
      SignedTrip(-n, 7);
    }
  }

  lemma TailOfAppend(a: string, b: string)
    requires |b| >= 8
    ensures Tail(a + b) == Tail(b)
  {}

  lemma TailIsRead(digits: string)
    requires AllDigits(digits) && |digits| >= 8
    ensures ParseInt(Tail(digits)).Some? && 0 <= ParseInt(Tail(digits)).value < 100_000_000
  {
    var tail := Tail(digits);
    SignedIsRead(tail);
    ValueIsBounded(tail);
    PowersOfTen();
  }

  /** The tail of a strike field that overflows is all digits and below 10^8. */
  lemma OverflowIsMisread(n: int)
    requires !FitsEightPlaces(n) && |PrintMilli(n)| > 8
    ensures ParseInt(Tail(PrintMilli(n))) != Some(n)
  {
    if n >= 0 {
      DecimalIsRead(n, 8);
      TailIsRead(Decimal(n, 8));
    } else {
      var digits := Decimal(-n, 7);
      DecimalIsRead(-n, 7);
      TailIsRead(digits);
      TailOfAppend("-", digits);
    }
  }

  /** Eight places hold every thousandth count in (-10^7, 10^8), and no other. */
  lemma MilliTrip(n: int)
    ensures |PrintMilli(n)| >= 8
    ensures |PrintMilli(n)| == 8 <==> FitsEightPlaces(n)
    ensures ParseInt(Tail(PrintMilli(n))) == Some(n) <==> FitsEightPlaces(n)
  {
    MilliFits(n);
    if FitsEightPlaces(n) {
      MilliIsRead(n);
      assert PrintMilli(n)[0..] == PrintMilli(n);
    } else {
      OverflowIsMisread(n);
    }
  }

  lemma WholeMilli(strike: real, n: int)
    ensures n as real / 1000.0 == strike <==> strike * 1000.0 == n as real
    ensures strike * 1000.0 == n as real ==> Milli(strike) == n
  {}

  lemma StrikeSurvives(c: Contract)
    requires ValidDate(c.expiration) && Parse(Build(c)) == Ok(c)
    ensures c.strike * 1000.0 == Milli(c.strike) as real && FitsEightPlaces(Milli(c.strike))
  {
    var n := Milli(c.strike);
    MilliTrip(n);
    TailOfAppend(Upper(c.ticker) + PrintDate(c.expiration) + (if c.call then "C" else "P"), PrintMilli(n));
    WholeMilli(c.strike, ParseInt(Tail(PrintMilli(n))).value);
  }

  /** Parsing a symbol that is known piece by piece. */
  lemma ParsePieces(s: string, ticker: string, date: string, cp: char, milli: string)
    requires |date| == 6 && |milli| == 8 && s == ticker + date + [cp] + milli
    ensures Parse(s) ==
              if ParseInt(milli).None? || ParseDate(date).None? then Err(ValueError)
              else Ok(Contract(ticker, ParseDate(date).value, cp == 'C' || cp == 'c', ParseInt(milli).value as real / 1000.0))
  {
    var n := |ticker|;
    assert s[..n] == ticker && s[n..n + 6] == date && s[n + 6] == cp && s[n + 7..] == milli;
  }

  /** A symbol that is known piece by piece gives the contract back when every piece does. */
  lemma PiecesGiveBack(c: Contract, s: string, ticker: string, date: string, cp: char, milli: string, n: int)
    requires |date| == 6 && |milli| == 8 && s == ticker + date + [cp] + milli
    requires cp == (if c.call then 'C' else 'P') && ParseInt(milli) == Some(n)
    ensures Parse(s) == Ok(c) <==>
              ticker == c.ticker && ParseDate(date) == Some(c.expiration) && n as real / 1000.0 == c.strike
  {
    ParsePieces(s, ticker, date, cp, milli);
  }

  lemma FittingRoundTripIff(c: Contract)
    requires ValidDate(c.expiration) && FitsEightPlaces(Milli(c.strike))
    ensures Parse(Build(c)) == Ok(c) <==> RoundTrips(c)
  {
    var n := Milli(c.strike);
    MilliFits(n);
    MilliIsRead(n);
    PiecesGiveBack(c, Build(c), Upper(c.ticker), PrintDate(c.expiration), if c.call then 'C' else 'P', PrintMilli(n), n);
    DateTrip(c.expiration);
    WholeMilli(c.strike, n);
  }

  /** What a caller can check: upper-case ticker, a year strptime gives back, and a strike that is
      a whole number of thousandths and fits the eight places, sign included. */
  predicate RoundTrips(c: Contract) {
    && Upper(c.ticker) == c.ticker
    && 1969 <= c.expiration.year <= 2068
    && c.strike * 1000.0 == Milli(c.strike) as real
    && FitsEightPlaces(Milli(c.strike))
  }

  /** Main result: parse_occ_symbol undoes build_occ_symbol on exactly those contracts. */
  lemma RoundTripIff(c: Contract)
    requires ValidDate(c.expiration)
    ensures Parse(Build(c)) == Ok(c) <==> RoundTrips(c)
  {
    if FitsEightPlaces(Milli(c.strike)) {
      FittingRoundTripIff(c);
    } else if Parse(Build(c)) == Ok(c) {
      StrikeSurvives(c);
    }
  }

  /** What a symbol tells of a contract whose strike fits. */
  predicate SameSymbolData(a: Contract, b: Contract) {
    && Upper(a.ticker) == Upper(b.ticker) && a.call == b.call && Milli(a.strike) == Milli(b.strike)
    && a.expiration.year % 100 == b.expiration.year % 100
    && a.expiration.month == b.expiration.month && a.expiration.day == b.expiration.day
  }

  /** Main result: two contracts with fitting strikes have one symbol if and only if they agree in
      the upper-cased ticker, the two-digit year, month, day, type and strike in thousandths. */
  lemma SameSymbolIff(a: Contract, b: Contract)
    requires ValidDate(a.expiration) && ValidDate(b.expiration)
    requires FitsEightPlaces(Milli(a.strike)) && FitsEightPlaces(Milli(b.strike))
    ensures Build(a) == Build(b) <==> SameSymbolData(a, b)
  {
    MilliFits(Milli(a.strike));
    MilliFits(Milli(b.strike));
    assert |Build(a)| == |Upper(a.ticker)| + 15 && |Build(b)| == |Upper(b.ticker)| + 15;
    if Build(a) == Build(b) || SameSymbolData(a, b) {
      PiecesMatch(Upper(a.ticker), PrintDate(a.expiration), if a.call then "C" else "P", PrintMilli(Milli(a.strike)),
                  Upper(b.ticker), PrintDate(b.expiration), if b.call then "C" else "P", PrintMilli(Milli(b.strike)));
      MilliIsRead(Milli(a.strike));
      MilliIsRead(Milli(b.strike));
      SameDatePrint(a.expiration, b.expiration);
    }
  }

  lemma SameDatePrint(a: Date, b: Date)
    requires ValidDate(a) && ValidDate(b)
    ensures PrintDate(a) == PrintDate(b) <==> a.year % 100 == b.year % 100 && a.month == b.month && a.day == b.day
  {
    TwoPlaces(a.year % 100); TwoPlaces(a.month); TwoPlaces(a.day);
    TwoPlaces(b.year % 100); TwoPlaces(b.month); TwoPlaces(b.day);
    var s, t := PrintDate(a), PrintDate(b);
    assert s[..2] == Decimal(a.year % 100, 2) && s[2..4] == Decimal(a.month, 2) && s[4..] == Decimal(a.day, 2);
    assert t[..2] == Decimal(b.year % 100, 2) && t[2..4] == Decimal(b.month, 2) && t[4..] == Decimal(b.day, 2);
  }

  /** On the round-trip domain a symbol names one contract. */
  lemma BuildIsInjective(a: Contract, b: Contract)
    requires ValidDate(a.expiration) && ValidDate(b.expiration) && RoundTrips(a) && RoundTrips(b)
    ensures Build(a) == Build(b) <==> a == b
  {
    RoundTripIff(a);
    RoundTripIff(b);
  }

  lemma PiecesMatch(a: string, b: string, c: string, d: string, e: string, f: string, g: string, h: string)
    requires |a| == |e| && |b| == |f| && |c| == |g| && |d| == |h|
    ensures a + b + c + d == e + f + g + h <==> a == e && b == f && c == g && d == h
  {
    var s, t := a + b + c + d, e + f + g + h;
    var i, j, k := |a|, |a| + |b|, |a| + |b| + |c|;
    assert s[..i] == a && s[i..j] == b && s[j..k] == c && s[k..] == d;
    assert t[..i] == e && t[i..j] == f && t[j..k] == g && t[k..] == h;
  }

  /** The same, piece by piece, for a symbol whose pieces can all be printed. */
  lemma ReprintPieces(s: string)
    requires Parse(s).Ok? && |s| >= 15 && FitsEightPlaces(Milli(Parse(s).value.strike))
    ensures var c, k := Parse(s).value, |s| - 15;
            Build(c) == s <==>
              && Upper(s[..k]) == s[..k] && PrintDate(c.expiration) == s[k..k + 6]
              && (if c.call then 'C' else 'P') == s[k + 6] && PrintMilli(Milli(c.strike)) == Tail(s)
  {
    var c, k := Parse(s).value, |s| - 15;
    MilliFits(Milli(c.strike));
    assert s == s[..k] + s[k..k + 6] + [s[k + 6]] + Tail(s);
    PiecesMatch(Upper(s[..k]), PrintDate(c.expiration), if c.call then "C" else "P", PrintMilli(Milli(c.strike)),
                s[..k], s[k..k + 6], [s[k + 6]], Tail(s));
  }

  /** The strike of a parsed symbol, in thousandths, is what its tail reads. */
  lemma ParsedStrike(s: string)
    requires Parse(s).Ok?
    ensures ParseInt(Tail(s)).Some? && Milli(Parse(s).value.strike) == ParseInt(Tail(s)).value
    ensures FitsEightPlaces(Milli(Parse(s).value.strike))
    ensures |Build(Parse(s).value)| == |Parse(s).value.ticker| + 15
  {
    var c := Parse(s).value;
    WholeMilli(c.strike, ParseInt(Tail(s)).value);
    MilliReprint(Tail(s));
    MilliFits(Milli(c.strike));
  }

  /** The other way: a parsed symbol is printed back exactly when its ticker is upper case, its
      date is six digits, its type letter is C or P, and its strike field is not "+" signed and
      not minus zero. */
  lemma ReprintIff(s: string)
    requires Parse(s).Ok?
    ensures Build(Parse(s).value) == s <==>
              && |s| >= 15 && Upper(s[..|s| - 15]) == s[..|s| - 15]
              && AllDigits(s[|s| - 15..|s| - 9])
              && s[|s| - 9] in {'C', 'P'}
              && Tail(s)[0] != '+' && Tail(s) != "-0000000"
  {
    ParsedStrike(s);
    if |s| >= 15 {
      var k := DateStart(s);
      ReprintPieces(s);
      DateReprint(s[k..k + 6]);
      MilliReprint(Tail(s));
    }
  }

  lemma TwoDigits(s: string)
    requires |s| == 2 && AllDigits(s)
    ensures Value(s) < 100 && Decimal(Value(s), 2) == s
  {
    ReadIsPrinted(s);
    ValueIsBounded(s);
    PowersOfTen();
  }

  /** A six-character date is two digits each, but the day may be blank-padded. */
  lemma SixCharacters(s: string)
    requires |s| == 6 && ParseDate(s).Some?
    ensures MonthLength(s[2..]) == 2 && DayLength(s[4..]) == 2
    ensures AllDigits(s[..2]) && AllDigits(s[2..4])
    ensures AllDigits(s[4..]) <==> AllDigits(s)
  {
    assert s == s[..2] + s[2..4] + s[4..];
    assert s[2..][..2] == s[2..4] && s[2..][2..] == s[4..];
  }

  lemma DateReprint(s: string)
    requires |s| == 6 && ParseDate(s).Some?
    ensures PrintDate(ParseDate(s).value) == s <==> AllDigits(s)
  {
    var d := ParseDate(s).value;
    SixCharacters(s);
    TwoDigits(s[..2]);
    TwoDigits(s[2..4]);
    assert s == s[..2] + s[2..4] + s[4..];
    assert FullYear(Value(s[..2])) % 100 == Value(s[..2]);
    if AllDigits(s) {
      TwoDigits(s[4..]);
    } else {
      TwoPlaces(d.day);
      assert PrintDate(d)[4..] == Decimal(d.day, 2);
    }
  }

  lemma OneDigit(day: int)
    requires 1 <= day <= 9
    ensures Decimal(day, 1) == [Digit(day)] && AllDigits(Decimal(day, 1)) && Value(Decimal(day, 1)) == day
    ensures DayLength(Decimal(day, 1)) == 1
  {
    DecimalIsRead(day, 1);
    assert IsPositiveDigit(Digit(day));
  }

  /** strptime reads a one-digit day, so that symbols of fourteen characters parse too. */
  lemma OneDigitDayIsRead(yy: int, month: int, day: int)
    requires 0 <= yy < 100 && 10 <= month <= 12 && 1 <= day <= 9
    ensures var date := Decimal(yy, 2) + Decimal(month, 2) + Decimal(day, 1);
            |date| == 5 && ParseDate(date) == Some(Date(FullYear(yy), month, day))
  {
    TwoPlaces(yy);
    TwoPlaces(month);
    TwoDigitsOfMonth(month);
    OneDigit(day);
    DatePieces(Decimal(yy, 2), Decimal(month, 2), Decimal(day, 1));
  }

  lemma MilliReprint(s: string)
    requires |s| == 8 && ParseInt(s).Some?
    ensures FitsEightPlaces(ParseInt(s).value)
    ensures PrintMilli(ParseInt(s).value) == s <==> s[0] != '+' && s != "-0000000"
  {
    PowersOfTen();
    var n := ParseInt(s).value;
    if s[0] == '+' {
      ValueIsBounded(s[1..]);
      PrintedDigits(n, 8);
      assert IsDigit(Decimal(n, 8)[0]);
    } else if s[0] == '-' {
      MinusReprint(s[1..]);
      assert s == "-" + s[1..];
    } else {
      ValueIsBounded(s);
      ReadIsPrinted(s);
    }
  }

  lemma MinusReprint(digits: string)
    requires |digits| == 7 && AllDigits(digits)
    ensures Value(digits) < 10_000_000
    ensures PrintMilli(-(Value(digits) as int)) == "-" + digits <==> digits != "0000000"
  {
    PowersOfTen();
    ValueIsBounded(digits);
    ReadIsPrinted(digits);
    ZeroesAreZero();
    PrintedDigits(0, 8);
    assert IsDigit(Decimal(0, 8)[0]);
    assert ("-" + digits)[1..] == digits;
    if Value(digits) == 0 {
      assert ("-" + digits)[0] == '-';
    }
  }

  lemma ZeroesAreZero()
    ensures Decimal(0, 7) == "0000000"
    ensures Value("0000000") == 0
  {
    assert Decimal(0, 2) == "00";
    assert Decimal(0, 3) == "000";
    assert Decimal(0, 4) == "0000";
    assert Decimal(0, 5) == "00000";
    assert Decimal(0, 6) == "000000";
    DecimalIsRead(0, 7);
  }

  /** _underlying_from_occ gives the parsed ticker, except that it returns the whole symbol when
      the ticker is empty. */
  lemma UnderlyingAgreesIff(s: string)
    requires Parse(s).Ok?
    ensures Underlying(s) == Parse(s).value.ticker <==> Parse(s).value.ticker != ""
  {
    assert |s| == 15 ==> s[..0] == "" && s != "";
  }
}
