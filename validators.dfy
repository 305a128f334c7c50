/**
  * Field validators of the two chat controllers: the e-mail and phone
  * regular expressions, the guest range, calendar dates (`fromisoformat` and
  * `strptime('%Y-%m-%d')`) and clock times (`strptime('%H:%M')` and the
  * `hh, mm = [int(x) for x in s.split(":")]` form) with the opening hours.
  */
module Validators {
  import opened Wrappers
  import opened Text

  // ---------------------------------------------------------------------
  // Searching for one character

  /** The first index of `c` in `s`. */
  function IndexOf(s: string, c: char): (r: Option<nat>)
    ensures r.None? <==> c !in s
    ensures r.Some? ==> r.value < |s| && s[r.value] == c && c !in s[..r.value]
    decreases |s|
  {
    if s == [] then None
    else if s[0] == c then Some(0)
    else
      var r := IndexOf(s[1..], c);
      if r.Some? then
        assert s[..r.value + 1] == [s[0]] + s[1..][..r.value];
        Some(r.value + 1)
      else
        assert s == [s[0]] + s[1..];
        None
  }

  /** The last index of `c` in `s`. */
  function LastIndexOf(s: string, c: char): (r: Option<nat>)
    ensures r.None? <==> c !in s
    ensures r.Some? ==> r.value < |s| && s[r.value] == c && c !in s[r.value + 1..]
    decreases |s|
  {
    if s == [] then None
    else if s[|s| - 1] == c then Some(|s| - 1)
    else
      var r := LastIndexOf(s[..|s| - 1], c);
      assert s == s[..|s| - 1] + [s[|s| - 1]];
      if r.Some? then
        assert s[r.value + 1..] == s[..|s| - 1][r.value + 1..] + [s[|s| - 1]];
        r
      else
        None
  }

  lemma FirstIndexIsUnique(s: string, c: char, a: nat)
    requires a < |s| && s[a] == c && c !in s[..a]
    ensures IndexOf(s, c) == Some(a)
  {
  }

  lemma LastIndexIsUnique(s: string, c: char, b: nat)
    requires b < |s| && s[b] == c && c !in s[b + 1..]
    ensures LastIndexOf(s, c) == Some(b)
  {
  }

  // ---------------------------------------------------------------------
  // E-mail: ^[\w.-]+@[\w.-]+\.TLD$ with TLD = [a-z]{2,} or [a-zA-Z]{2,}

  predicate IsWordChar(c: char) { IsLetter(c) || IsDigit(c) || c == '_' }
  predicate IsEmailChar(c: char) { IsWordChar(c) || c == '.' || c == '-' }

  /** Which letters the top-level domain may use. */
  datatype TldCase = LowerCaseOnly | AnyCase

  predicate IsTldChar(c: char, tc: TldCase) {
    match tc
    case LowerCaseOnly => IsLower(c)
    case AnyCase => IsLetter(c)
  }

  predicate AllEmailChars(s: string) { forall i :: 0 <= i < |s| ==> IsEmailChar(s[i]) }
  predicate AllTldChars(s: string, tc: TldCase) { forall i :: 0 <= i < |s| ==> IsTldChar(s[i], tc) }

  /**
    * The pattern read as a grammar: `s` is split at `a` (the `@`) and at `b`
    * (the dot before the top-level domain) into a non-empty local part, a
    * non-empty host and a top-level domain of at least two letters.
    */
  predicate EmailSplitAt(s: string, tc: TldCase, a: int, b: int) {
    && 0 < a && a + 1 < b && b + 2 < |s|
    && s[a] == '@' && s[b] == '.'
    && AllEmailChars(s[..a]) && AllEmailChars(s[a + 1..b]) && AllTldChars(s[b + 1..], tc)
  }

  ghost predicate MatchesEmailPattern(s: string, tc: TldCase) {
    exists a, b :: EmailSplitAt(s, tc, a, b)
  }

  /** The host part after the `@`: e-mail characters, its last dot followed by at least two TLD letters. */
  predicate HostOk(d: string, tc: TldCase) {
    && AllEmailChars(d)
    && match LastIndexOf(d, '.')
       case None => false
       case Some(b) => b > 0 && |d| - b - 1 >= 2 && AllTldChars(d[b + 1..], tc)
  }

  /** A decision procedure for the pattern: split at the only `@`, then at the host's last dot. */
  predicate EmailOk(s: string, tc: TldCase) {
    match IndexOf(s, '@')
    case None => false
    case Some(a) => a > 0 && AllEmailChars(s[..a]) && HostOk(s[a + 1..], tc)
  }

  /** The decision procedure accepts exactly the strings the pattern matches. */
  lemma EmailOkMatchesPattern(s: string, tc: TldCase)
    ensures EmailOk(s, tc) <==> MatchesEmailPattern(s, tc)
  {
    if EmailOk(s, tc) { EmailOkIsSound(s, tc); }
    if MatchesEmailPattern(s, tc) {
      var a, b :| EmailSplitAt(s, tc, a, b);
      EmailOkIsComplete(s, tc, a, b);
    }
  }

  lemma EmailOkIsSound(s: string, tc: TldCase)
    requires EmailOk(s, tc)
    ensures MatchesEmailPattern(s, tc)
  {
    var a := IndexOf(s, '@').value;
    var d := s[a + 1..];
    var b' := LastIndexOf(d, '.').value;
    var b := a + 1 + b';
    assert s[a + 1..b] == d[..b'];
    assert s[b + 1..] == d[b' + 1..];
    assert EmailSplitAt(s, tc, a, b);
  }

  lemma EmailOkIsComplete(s: string, tc: TldCase, a: int, b: int)
    requires EmailSplitAt(s, tc, a, b)
    ensures EmailOk(s, tc)
  {
    var local := s[..a];
    assert '@' !in local by {
      forall i | 0 <= i < |local| ensures local[i] != '@' { assert IsEmailChar(local[i]); }
    }
    FirstIndexIsUnique(s, '@', a);
    assert s[a + 1..] == s[a + 1..b] + "." + s[b + 1..];
    HostOkOf(s[a + 1..b], s[b + 1..], tc);
  }

  lemma HostOkOf(host: string, tld: string, tc: TldCase)
    requires |host| > 0 && |tld| >= 2 && AllEmailChars(host) && AllTldChars(tld, tc)
    ensures HostOk(host + "." + tld, tc)
  {
    var d := host + "." + tld;
    var b := |host|;
    assert d[b + 1..] == tld;
    assert '.' !in tld by {
      forall i | 0 <= i < |tld| ensures tld[i] != '.' { assert IsTldChar(tld[i], tc); }
    }
    LastIndexIsUnique(d, '.', b);
    forall i | 0 <= i < |d| ensures IsEmailChar(d[i]) {
      if i < b { assert d[i] == host[i]; }
      else if i > b { assert d[i] == tld[i - b - 1]; assert IsTldChar(tld[i - b - 1], tc); }
    }
  }

  /** colab_app.py `validate_email`: the top-level domain must be lower case. */
  predicate ValidateEmail(s: string) { EmailOk(s, LowerCaseOnly) }

  /** streamlit_app.py `is_valid_email`: the top-level domain may use either case. */
  predicate IsValidEmail(s: string) { EmailOk(s, AnyCase) }

  /** Every address the first validator accepts, the second accepts too. */
  lemma ValidateEmailImpliesIsValidEmail(s: string)
    requires ValidateEmail(s)
    ensures IsValidEmail(s)
  {
    EmailOkMatchesPattern(s, LowerCaseOnly);
    var a, b :| EmailSplitAt(s, LowerCaseOnly, a, b);
    assert EmailSplitAt(s, AnyCase, a, b);
    EmailOkMatchesPattern(s, AnyCase);
  }

  // ---------------------------------------------------------------------
  // Phone numbers

  /** colab_app.py `validate_phone`, `^\+?\d{10,15}$`: an optional plus, then 10 to 15 digits. */
  predicate ValidatePhone(s: string) {
    var digits := if |s| > 0 && s[0] == '+' then s[1..] else s;
    10 <= |digits| <= 15 && AllDigits(digits)
  }

  predicate IsPhoneTailChar(c: char) {
    IsDigit(c) || IsSpace(c) || c == '(' || c == ')' || c == '-'
  }

  /**
    * streamlit_app.py `is_valid_phone`, `^[+\d][\d\s()-]{6,}$`: a plus or a
    * digit, then at least six digits, spaces, parentheses or hyphens.
    */
  predicate IsValidPhone(s: string) {
    |s| >= 7 && (s[0] == '+' || IsDigit(s[0])) && forall i :: 1 <= i < |s| ==> IsPhoneTailChar(s[i])
  }

  /** `^\+?\d{10,15}$` read as a grammar: an optional plus, then 10 to 15 digits and nothing else. */
  ghost predicate MatchesStrictPhonePattern(s: string) {
    exists ds :: 10 <= |ds| <= 15 && AllDigits(ds) && (s == ds || s == "+" + ds)
  }

  /** `ValidatePhone` accepts exactly what its pattern matches. */
  lemma ValidatePhoneMatchesPattern(s: string)
    ensures ValidatePhone(s) <==> MatchesStrictPhonePattern(s)
  {
    if ValidatePhone(s) {
      if |s| > 0 && s[0] == '+' {
        assert s == "+" + s[1..];
      }
    }
    if MatchesStrictPhonePattern(s) {
      var ds :| 10 <= |ds| <= 15 && AllDigits(ds) && (s == ds || s == "+" + ds);
      if s == "+" + ds {
        assert s[1..] == ds;
      } else {
        assert IsDigit(s[0]);
      }
    }
  }

  predicate IsPhoneLeadChar(c: char) { c == '+' || IsDigit(c) }
  predicate AllPhoneTailChars(t: string) { forall i :: 0 <= i < |t| ==> IsPhoneTailChar(t[i]) }

  /** `^[+\d][\d\s()-]{6,}$` read as a grammar: one leading character, then six or more tail characters. */
  ghost predicate MatchesLoosePhonePattern(s: string) {
    exists c, t :: s == [c] + t && IsPhoneLeadChar(c) && |t| >= 6 && AllPhoneTailChars(t)
  }

  /** `IsValidPhone` accepts exactly what its pattern matches. */
  lemma IsValidPhoneMatchesPattern(s: string)
    ensures IsValidPhone(s) <==> MatchesLoosePhonePattern(s)
  {
    if IsValidPhone(s) {
      var c, t := s[0], s[1..];
      assert s == [c] + t;
      forall i | 0 <= i < |t| ensures IsPhoneTailChar(t[i]) { assert t[i] == s[i + 1]; }
      assert IsPhoneLeadChar(c) && AllPhoneTailChars(t);
    }
    if MatchesLoosePhonePattern(s) {
      var c, t :| s == [c] + t && IsPhoneLeadChar(c) && |t| >= 6 && AllPhoneTailChars(t);
      forall i | 1 <= i < |s| ensures IsPhoneTailChar(s[i]) { assert s[i] == t[i - 1]; }
    }
  }

  /** The strict phone rule is contained in the loose one. */
  lemma ValidatePhoneImpliesIsValidPhone(s: string)
    requires ValidatePhone(s)
    ensures IsValidPhone(s)
  {
    if s[0] == '+' {
      forall i | 1 <= i < |s| ensures IsDigit(s[i]) { assert s[i] == s[1..][i - 1]; }
    }
  }

  // ---------------------------------------------------------------------
  // Guests

  /** Both `guests` steps of colab_app.py accept 1 to 20 guests. */
  predicate GuestCountOk(n: int) { 0 < n <= 20 }

  /** streamlit_app.py's `max(1, min(20, n))`. */
  function ClampGuests(n: int): (r: int)
    ensures GuestCountOk(r)
    ensures GuestCountOk(n) ==> r == n
    ensures n > 20 ==> r == 20
    ensures n < 1 ==> r == 1
  {
    if n < 1 then 1 else if n > 20 then 20 else n
  }

  // ---------------------------------------------------------------------
  // Calendar dates

  datatype Date = Date(year: int, month: int, day: int)

  predicate IsLeapYear(y: int) { y % 4 == 0 && (y % 100 != 0 || y % 400 == 0) }

  function DaysInMonth(y: int, m: int): int
    requires 1 <= m <= 12
  {
    if m == 2 then (if IsLeapYear(y) then 29 else 28)
    else if m == 4 || m == 6 || m == 9 || m == 11 then 30
    else 31
  }

  /** A date Python's `datetime.date` can hold (`MINYEAR` 1 to `MAXYEAR` 9999). */
  predicate ValidDate(d: Date) {
    1 <= d.year <= 9999 && 1 <= d.month <= 12 && 1 <= d.day <= DaysInMonth(d.year, d.month)
  }

  /** `a <= b` on dates. */
  predicate DateLe(a: Date, b: Date) {
    a.year < b.year || (a.year == b.year && (a.month < b.month || (a.month == b.month && a.day <= b.day)))
  }

  /** `d.strftime('%Y-%m-%d')` (and `d.isoformat()`). */
  function FormatIsoDate(d: Date): (s: string)
    requires ValidDate(d)
    ensures |s| == 10
  {
    Pad4(d.year) + "-" + Pad2(d.month) + "-" + Pad2(d.day)
  }

  /**
    * `datetime.date.fromisoformat(s)` on its `YYYY-MM-DD` form; `None` is the
    * `ValueError`.
    */
  function ParseIsoDate(s: string): (r: Option<Date>)
    ensures r.Some? ==> ValidDate(r.value) && FormatIsoDate(r.value) == s
  {
    if |s| == 10 && s[4] == '-' && s[7] == '-' && AllDigits(s[..4]) && AllDigits(s[5..7]) && AllDigits(s[8..]) then
      var d := Date(DigitsValue(s[..4]), DigitsValue(s[5..7]), DigitsValue(s[8..]));
      if ValidDate(d) then
        IsoDateCanonical(s, d);
        Some(d)
      else None
    else None
  }

  lemma IsoDateCanonical(s: string, d: Date)
    requires |s| == 10 && s[4] == '-' && s[7] == '-' && AllDigits(s[..4]) && AllDigits(s[5..7]) && AllDigits(s[8..])
    requires d == Date(DigitsValue(s[..4]), DigitsValue(s[5..7]), DigitsValue(s[8..])) && ValidDate(d)
    ensures FormatIsoDate(d) == s
  {
    Pad4Injective(s[..4]);
    Pad2Injective(s[5..7]);
    Pad2Injective(s[8..]);
    assert s == s[..4] + "-" + s[5..7] + "-" + s[8..];
  }

  /** Formatting then parsing gives the date back: the two are inverse. */
  lemma IsoDateRoundTrip(d: Date)
    requires ValidDate(d)
    ensures ParseIsoDate(FormatIsoDate(d)) == Some(d)
  {
    var s := FormatIsoDate(d);
    Pad4Digits(d.year);
    Pad2Digits(d.month);
    Pad2Digits(d.day);
    assert s[..4] == Pad4(d.year) && s[5..7] == Pad2(d.month) && s[8..] == Pad2(d.day);
  }

  /**
    * One `%m`, `%d`, `%H` or `%M` field of `strptime`: one or two digits
    * (the leading zero is optional) spelling a value in `[lo, hi]`.
    */
  function ShortField(s: string, lo: int, hi: int): (r: Option<int>)
    ensures r.Some? ==> lo <= r.value <= hi && 1 <= |s| <= 2 && AllDigits(s) && r.value == DigitsValue(s)
  {
    if 1 <= |s| <= 2 && AllDigits(s) && lo <= DigitsValue(s) <= hi then Some(DigitsValue(s)) else None
  }

  /**
    * `datetime.datetime.strptime(s, '%Y-%m-%d').date()`: four digits for the
    * year, then month and day of one or two digits; `None` is the `ValueError`.
    */
  function StrptimeDate(s: string): (r: Option<Date>)
    ensures r.Some? ==> ValidDate(r.value)
  {
    if |s| < 5 || !AllDigits(s[..4]) || s[4] != '-' then None
    else
      var rest := s[5..];
      match IndexOf(rest, '-')
      case None => None
      case Some(j) =>
        match (ShortField(rest[..j], 1, 12), ShortField(rest[j + 1..], 1, 31))
        case (Some(m), Some(day)) =>
          var d := Date(DigitsValue(s[..4]), m, day);
          if ValidDate(d) then Some(d) else None
        case _ => None
  }

  /** The zero-padded form is one of the forms `strptime` accepts. */
  lemma StrptimeDateAcceptsIsoForm(d: Date)
    requires ValidDate(d)
    ensures StrptimeDate(FormatIsoDate(d)) == Some(d)
  {
    var s := FormatIsoDate(d);
    var rest := s[5..];
    Pad4Digits(d.year);
    Pad2Digits(d.month);
    Pad2Digits(d.day);
    assert s[..4] == Pad4(d.year);
    assert rest == Pad2(d.month) + "-" + Pad2(d.day);
    FirstIndexIsUnique(rest, '-', 2);
    assert rest[..2] == Pad2(d.month) && rest[3..] == Pad2(d.day);
  }

  // ---------------------------------------------------------------------
  // Clock times and opening hours

  datatype Clock = Clock(hour: int, minute: int)

  /** What `datetime.time(hour, minute)` accepts. */
  predicate ValidClock(c: Clock) { 0 <= c.hour <= 23 && 0 <= c.minute <= 59 }

  function Minutes(c: Clock): int { c.hour * 60 + c.minute }

  const OpeningMinutes: int := 11 * 60
  const ClosingMinutes: int := 22 * 60

  /** `time(11, 0) <= t <= time(22, 0)`: both ends are inside. */
  predicate WithinOpeningHours(c: Clock) { OpeningMinutes <= Minutes(c) <= ClosingMinutes }

  /** `f"{hour:02d}:{minute:02d}"` */
  function FormatClock(c: Clock): (s: string)
    requires ValidClock(c)
  {
    Pad2(c.hour) + ":" + Pad2(c.minute)
  }

  /**
    * `datetime.datetime.strptime(s, '%H:%M').time()`: hour and minute of one
    * or two digits around a colon; `None` is the `ValueError`.
    */
  function StrptimeClock(s: string): (r: Option<Clock>)
    ensures r.Some? ==> ValidClock(r.value)
  {
    match IndexOf(s, ':')
    case None => None
    case Some(i) =>
      match (ShortField(s[..i], 0, 23), ShortField(s[i + 1..], 0, 59))
      case (Some(h), Some(m)) => Some(Clock(h, m))
      case _ => None
  }

  /** The zero-padded form is one of the forms `strptime` accepts. */
  lemma StrptimeClockAcceptsPaddedForm(c: Clock)
    requires ValidClock(c)
    ensures StrptimeClock(FormatClock(c)) == Some(c)
  {
    var s := FormatClock(c);
    Pad2Digits(c.hour);
    Pad2Digits(c.minute);
    FirstIndexIsUnique(s, ':', 2);
    assert s[..2] == Pad2(c.hour) && s[3..] == Pad2(c.minute);
  }

  /**
    * streamlit_app.py's `hh, mm = [int(x) for x in s.split(":")]` followed by
    * `time(hh, mm)`: exactly one colon, an integer on each side, and a valid
    * clock time; `None` is any of the exceptions on the way.
    */
  function TypedClock(s: string): (r: Option<Clock>)
    ensures r.Some? ==> ValidClock(r.value)
    ensures r.Some? ==> exists i :: TypedSplitAt(s, i, r.value)
  {
    match IndexOf(s, ':')
    case None => None
    case Some(i) =>
      if ':' in s[i + 1..] then None
      else
        match (PyInt(s[..i]), PyInt(s[i + 1..]))
        case (Some(h), Some(m)) =>
          var c := Clock(h, m);
          if ValidClock(c) then
            assert TypedSplitAt(s, i, c);
            Some(c)
          else None
        case _ => None
  }

  /** `s` is split by its only colon, at `i`, into the two integers of `c`. */
  predicate TypedSplitAt(s: string, i: int, c: Clock) {
    && 0 <= i < |s| && s[i] == ':' && ':' !in s[..i] && ':' !in s[i + 1..]
    && PyInt(s[..i]) == Some(c.hour) && PyInt(s[i + 1..]) == Some(c.minute)
  }

  /** The zero-padded streamlit form reads back as the time it came from. */
  lemma TypedClockAcceptsPaddedForm(c: Clock)
    requires ValidClock(c)
    ensures TypedClock(FormatClock(c)) == Some(c)
  {
    var s := FormatClock(c);
    Pad2Digits(c.hour);
    Pad2Digits(c.minute);
    FirstIndexIsUnique(s, ':', 2);
    assert s[..2] == Pad2(c.hour) && s[3..] == Pad2(c.minute);
    PyIntOfDigits(s[..2]);
    PyIntOfDigits(s[3..]);
  }

  /** The opening-hours boundaries are inclusive: 11:00 and 22:00 in, 10:59 and 22:01 out. */
  lemma OpeningHoursAreClosed()
    ensures WithinOpeningHours(Clock(11, 0)) && WithinOpeningHours(Clock(22, 0))
    ensures !WithinOpeningHours(Clock(10, 59)) && !WithinOpeningHours(Clock(22, 1))
    ensures forall c :: ValidClock(c) && WithinOpeningHours(c) ==> 11 <= c.hour <= 22 && (c.hour == 22 ==> c.minute == 0)
  {
  }
}
