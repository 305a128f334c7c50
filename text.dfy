/**
  * The string helpers both controllers lean on, restricted to ASCII:
  * `str.lower`, the `in` substring test, `str.strip`, `str.title`,
  * `re.findall(r"\d+", s)[0]`, `int(s)` and `str(n)`, and the
  * code-point order that string comparison uses.
  */
module Text {
  import opened Wrappers

  // ---------------------------------------------------------------------
  // Character classes

  predicate IsDigit(c: char) { '0' <= c <= '9' }
  predicate IsUpper(c: char) { 'A' <= c <= 'Z' }
  predicate IsLower(c: char) { 'a' <= c <= 'z' }
  predicate IsLetter(c: char) { IsUpper(c) || IsLower(c) }

  /** The ASCII characters for which Python's `str.isspace` holds (and `\s` matches). */
  predicate IsSpace(c: char) {
    c == ' ' || 9 <= c as int <= 13 || 28 <= c as int <= 31
  }

  predicate AllDigits(s: string) {
    forall i :: 0 <= i < |s| ==> IsDigit(s[i])
  }

  function LowerChar(c: char): (r: char)
    ensures IsUpper(c) ==> IsLower(r) && r as int == c as int + 32
    ensures !IsUpper(c) ==> r == c
  {
    if IsUpper(c) then (c as int + 32) as char else c
  }

  function UpperChar(c: char): (r: char)
    ensures IsLower(c) ==> IsUpper(r) && r as int == c as int - 32
    ensures !IsLower(c) ==> r == c
  {
    if IsLower(c) then (c as int - 32) as char else c
  }

  // ---------------------------------------------------------------------
  // str.lower

  /** `s.lower()`: every upper-case letter lowered, everything else kept, in place. */
  function Lower(s: string): (r: string)
    ensures |r| == |s|
    ensures forall i :: 0 <= i < |s| ==> r[i] == LowerChar(s[i])
  {
    seq(|s|, i requires 0 <= i < |s| => LowerChar(s[i]))
  }

  /** Lowering twice is lowering once, and a lowered string has no upper-case letter. */
  lemma LowerIdempotent(s: string)
    ensures Lower(Lower(s)) == Lower(s)
    ensures forall i :: 0 <= i < |s| ==> !IsUpper(Lower(s)[i])
  {
    assert forall i :: 0 <= i < |s| ==> Lower(Lower(s))[i] == Lower(s)[i];
  }

  // ---------------------------------------------------------------------
  // The `in` operator on strings

  predicate StartsWith(s: string, p: string) {
    |p| <= |s| && s[..|p|] == p
  }

  /** `k` is spelled by `s` starting at index `i`. */
  predicate OccursAt(s: string, k: string, i: int) {
    0 <= i && i + |k| <= |s| && s[i..i + |k|] == k
  }

  /** `k in s`: some window of `s` spells `k`. */
  function Contains(s: string, k: string): (r: bool)
    ensures r <==> exists i :: OccursAt(s, k, i)
    decreases |s|
  {
    if StartsWith(s, k) then
      assert OccursAt(s, k, 0);
      true
    else if |s| == 0 then
      false
    else
      var rest := Contains(s[1..], k);
      if rest then
        var i :| OccursAt(s[1..], k, i);
        assert OccursAt(s, k, i + 1);
        true
      else
        assert forall i :: OccursAt(s, k, i) ==> i >= 1 && OccursAt(s[1..], k, i - 1);
        false
  }

  /** A string without upper-case letters is its own lower-case form. */
  lemma LowerOfNoUpper(s: string)
    requires forall i :: 0 <= i < |s| ==> !IsUpper(s[i])
    ensures Lower(s) == s
  {
  }

  /** Lower-casing works character by character, so it distributes over concatenation. */
  lemma LowerConcat(a: string, b: string)
    ensures Lower(a + b) == Lower(a) + Lower(b)
  {
    assert forall i :: 0 <= i < |a + b| ==> Lower(a + b)[i] == (Lower(a) + Lower(b))[i];
  }

  /** A keyword placed between two texts occurs right after the first. */
  lemma OccursInMiddle(p: string, k: string, q: string)
    ensures OccursAt(p + k + q, k, |p|)
  {
    assert (p + k + q)[|p|..|p| + |k|] == k;
  }

  /** A keyword whose first character the text lacks does not occur in it. */
  lemma NotContainsWithoutFirstChar(s: string, k: string)
    requires |k| > 0 && k[0] !in s
    ensures !Contains(s, k)
  {
  }

  // ---------------------------------------------------------------------
  // str.strip

  predicate AllSpace(s: string) {
    forall i :: 0 <= i < |s| ==> IsSpace(s[i])
  }

  /** How many white-space characters `s` starts with. */
  function LeadingSpaces(s: string): (n: nat)
    ensures n <= |s|
    ensures forall i :: 0 <= i < n ==> IsSpace(s[i])
    ensures n < |s| ==> !IsSpace(s[n])
    decreases |s|
  {
    if s != [] && IsSpace(s[0]) then
      var n := LeadingSpaces(s[1..]);
      assert forall i :: 1 <= i < n + 1 ==> s[i] == s[1..][i - 1];
      n + 1
    else 0
  }

  /** How many white-space characters `s` ends with. */
  function TrailingSpaces(s: string): (n: nat)
    ensures n <= |s|
    ensures forall i :: |s| - n <= i < |s| ==> IsSpace(s[i])
    ensures n < |s| ==> !IsSpace(s[|s| - 1 - n])
    decreases |s|
  {
    if s != [] && IsSpace(s[|s| - 1]) then
      var n := TrailingSpaces(s[..|s| - 1]);
      assert forall i :: |s| - 1 - n <= i < |s| - 1 ==> s[i] == s[..|s| - 1][i];
      n + 1
    else 0
  }

  /** `r` is the window of `s` at `a`, with nothing but white space around it. */
  predicate StrippedAt(s: string, r: string, a: int) {
    && 0 <= a && a + |r| <= |s| && r == s[a..a + |r|]
    && (forall i :: 0 <= i < a ==> IsSpace(s[i]))
    && (forall i :: a + |r| <= i < |s| ==> IsSpace(s[i]))
  }

  /**
    * `s.strip()`: the window of `s` left after removing the leading and the
    * trailing white space; it neither starts nor ends with white space.
    */
  function Strip(s: string): (r: string)
    ensures exists a :: StrippedAt(s, r, a)
    ensures r != [] ==> !IsSpace(r[0]) && !IsSpace(r[|r| - 1])
    ensures r == [] <==> AllSpace(s)
  {
    var lead := LeadingSpaces(s);
    if lead == |s| then
      assert StrippedAt(s, [], |s|);
      []
    else
      var trail := TrailingSpaces(s);
      assert trail < |s| - lead;
      var r := s[lead..|s| - trail];
      assert StrippedAt(s, r, lead);
      assert !IsSpace(s[lead]);
      r
  }

  /** Stripping a string that neither starts nor ends with white space changes nothing. */
  lemma StripNoSpace(s: string)
    requires s != [] ==> !IsSpace(s[0]) && !IsSpace(s[|s| - 1])
    ensures Strip(s) == s
  {
    if s != [] {
      assert LeadingSpaces(s) == 0 && TrailingSpaces(s) == 0;
      assert s[0..|s|] == s;
    }
  }

  // ---------------------------------------------------------------------
  // str.title

  /**
    * What `str.title` makes of the letter at `i`: upper case when it starts a
    * run of letters, lower case inside one; anything else is left alone.
    */
  function TitleCharAt(s: string, i: nat): char
    requires i < |s|
  {
    if !IsLetter(s[i]) then s[i]
    else if i > 0 && IsLetter(s[i - 1]) then LowerChar(s[i])
    else UpperChar(s[i])
  }

  /** CPython's left-to-right scan, carrying whether the previous character was cased. */
  function TitleScan(s: string, previousCased: bool): string
    decreases |s|
  {
    if s == [] then []
    else
      var c := if !IsLetter(s[0]) then s[0] else if previousCased then LowerChar(s[0]) else UpperChar(s[0]);
      [c] + TitleScan(s[1..], IsLetter(s[0]))
  }

  lemma {:induction false} TitleScanAt(s: string, previousCased: bool, i: nat)
    requires i < |s|
    ensures |TitleScan(s, previousCased)| == |s|
    ensures TitleScan(s, previousCased)[i] ==
            if !IsLetter(s[i]) then s[i]
            else if (if i == 0 then previousCased else IsLetter(s[i - 1])) then LowerChar(s[i])
            else UpperChar(s[i])
    decreases |s|
  {
    if i == 0 {
      if |s| > 1 { TitleScanAt(s[1..], IsLetter(s[0]), 0); }
    } else {
      TitleScanAt(s[1..], IsLetter(s[0]), i - 1);
      if i - 1 == 0 {
        assert s[1..][0] == s[1];
      }
    }
  }

  /** `s.title()` */
  function Title(s: string): (r: string)
    ensures |r| == |s|
    ensures forall i :: 0 <= i < |s| ==> r[i] == TitleCharAt(s, i)
  {
    var r := TitleScan(s, false);
    if s == [] then r
    else
      TitleScanAt(s, false, 0);
      assert forall i :: 0 <= i < |s| ==> r[i] == TitleCharAt(s, i) by {
        forall i | 0 <= i < |s| ensures r[i] == TitleCharAt(s, i) {
          TitleScanAt(s, false, i);
        }
      }
      r
  }

  /** Title-casing is idempotent. */
  lemma TitleIdempotent(s: string)
    ensures Title(Title(s)) == Title(s)
  {
    var t := Title(s);
    forall i | 0 <= i < |s| ensures Title(t)[i] == t[i] {
      assert IsLetter(t[i]) == IsLetter(s[i]);
      if i > 0 { assert IsLetter(t[i - 1]) == IsLetter(s[i - 1]); }
    }
  }

  // ---------------------------------------------------------------------
  // Digit strings and numbers

  function DigitValue(c: char): nat
    requires IsDigit(c)
  {
    c as int - '0' as int
  }

  function DigitChar(n: nat): (c: char)
    requires n < 10
    ensures IsDigit(c) && DigitValue(c) == n
  {
    ('0' as int + n) as char
  }

  /** The number a non-empty run of decimal digits spells, most significant first. */
  function DigitsValue(s: string): nat
    requires AllDigits(s)
    decreases |s|
  {
    if s == [] then 0 else DigitsValue(s[..|s| - 1]) * 10 + DigitValue(s[|s| - 1])
  }

  /** `str(n)` for a natural number: the shortest decimal spelling. */
  function NatToDigits(n: nat): (s: string)
    ensures |s| > 0 && AllDigits(s)
    ensures |s| > 1 ==> s[0] != '0'
    decreases n
  {
    if n < 10 then [DigitChar(n)] else NatToDigits(n / 10) + [DigitChar(n % 10)]
  }

  /** Reading back what `str` wrote gives the number again. */
  lemma {:induction false} NatToDigitsRoundTrip(n: nat)
    ensures DigitsValue(NatToDigits(n)) == n
    decreases n
  {
    var s := NatToDigits(n);
    if n >= 10 {
      NatToDigitsRoundTrip(n / 10);
      assert s[..|s| - 1] == NatToDigits(n / 10);
    }
  }

  /**
    * CPython's default `sys.get_int_max_str_digits()`: `int` of a string and
    * `str` of an integer raise `ValueError` past this many decimal digits.
    */
  const MaxStrDigits: nat := 4300

  /** `str(n)` for any integer; `None` stands for the `ValueError` past the digit limit. */
  function IntToString(n: int): Option<string> {
    var ds := NatToDigits(if n < 0 then -n else n);
    if |ds| > MaxStrDigits then None
    else Some(if n < 0 then "-" + ds else ds)
  }

  /**
    * `int(s)` on the ASCII forms: optional surrounding white space, an
    * optional sign, then at least one and at most `MaxStrDigits` decimal
    * digits. `None` stands for the `ValueError` Python raises.
    */
  function PyInt(s: string): Option<int> {
    IntLiteral(Strip(s))
  }

  /** `int` of an already stripped text. */
  function IntLiteral(t: string): Option<int> {
    if |t| > 0 && (t[0] == '+' || t[0] == '-') then
      var ds := t[1..];
      if 0 < |ds| <= MaxStrDigits && AllDigits(ds) then
        var v: int := DigitsValue(ds);
        Some(if t[0] == '-' then -v else v)
      else None
    else if 0 < |t| <= MaxStrDigits && AllDigits(t) then Some(DigitsValue(t))
    else None
  }

  /** `t` is a sign-less, `+` or `-` prefixed digit string `ds` of value `v`. */
  predicate IntegerForm(t: string, ds: string, v: int) {
    && AllDigits(ds) && |ds| > 0
    && ((t == ds && v == DigitsValue(ds)) ||
        (t == "+" + ds && v == DigitsValue(ds)) ||
        (t == "-" + ds && v == -(DigitsValue(ds) as int)))
  }

  /** What `int` accepts: after stripping, an optional sign and a non-empty run of at most `MaxStrDigits` digits. */
  lemma PyIntMeaning(s: string)
    ensures PyInt(s).Some? <==> exists ds, v :: IntegerForm(Strip(s), ds, v) && |ds| <= MaxStrDigits
    ensures PyInt(s).Some? ==> exists ds :: IntegerForm(Strip(s), ds, PyInt(s).value)
  {
    var t := Strip(s);
    if PyInt(s).Some? {
      if t[0] == '+' || t[0] == '-' {
        assert t == [t[0]] + t[1..];
        assert IntegerForm(t, t[1..], PyInt(s).value);
      } else {
        assert IntegerForm(t, t, PyInt(s).value);
      }
    }
    if exists ds, v :: IntegerForm(t, ds, v) && |ds| <= MaxStrDigits {
      var ds, v :| IntegerForm(t, ds, v) && |ds| <= MaxStrDigits;
      if t == "+" + ds || t == "-" + ds {
        assert t[1..] == ds;
      } else {
        assert t == ds && !IsDigit('+') && !IsDigit('-');
      }
    }
  }

  /** `int(str(n)) == n` for every integer that `str` can write. */
  lemma {:induction false} PyIntRoundTrip(n: int)
    ensures IntToString(n).Some? ==> PyInt(IntToString(n).value) == Some(n)
  {
    if n < 0 { PyIntOfNegative(-n); } else { PyIntOfNatural(n); }
  }

  /** `int` of a non-empty digit string is its value, unless it is longer than the limit. */
  lemma {:induction false} PyIntOfDigits(s: string)
    requires |s| > 0 && AllDigits(s)
    ensures PyInt(s) == if |s| <= MaxStrDigits then Some(DigitsValue(s) as int) else None
  {
    StripNoSpace(s);
  }

  lemma {:induction false} PyIntOfNatural(n: nat)
    ensures PyInt(NatToDigits(n)) == if |NatToDigits(n)| <= MaxStrDigits then Some(n) else None
  {
    NatToDigitsRoundTrip(n);
    PyIntOfDigits(NatToDigits(n));
  }

  lemma {:induction false} PyIntOfNegative(n: nat)
    requires n > 0
    ensures PyInt("-" + NatToDigits(n)) == if |NatToDigits(n)| <= MaxStrDigits then Some(-(n as int)) else None
  {
    var ds := NatToDigits(n);
    var s := "-" + ds;
    assert s[|s| - 1] == ds[|ds| - 1];
    StripNoSpace(s);
    NegativeLiteral(ds);
    NatToDigitsRoundTrip(n);
  }

  /** `int` of `-` and a digit string, once stripping has nothing to remove. */
  lemma {:induction false} NegativeLiteral(ds: string)
    requires |ds| > 0 && AllDigits(ds)
    ensures IntLiteral("-" + ds) == if |ds| <= MaxStrDigits then Some(-(DigitsValue(ds) as int)) else None
  {
    var t := "-" + ds;
    assert t[0] == '-' && t[1..] == ds;
  }

  /** `f"{n:02d}"` for `n < 100`: two digits, zero-padded. */
  function Pad2(n: nat): (s: string)
    requires n < 100
    ensures |s| == 2
  {
    [DigitChar(n / 10), DigitChar(n % 10)]
  }

  /** The two characters of `Pad2(n)` are digits spelling `n`. */
  lemma Pad2Digits(n: nat)
    requires n < 100
    ensures AllDigits(Pad2(n)) && DigitsValue(Pad2(n)) == n
  {
    var s := Pad2(n);
    assert s[..1][..0] == [];
    assert DigitsValue(s[..1]) == n / 10;
  }

  /** `f"{n:04d}"` for `n < 10000`: four digits, zero-padded. */
  function Pad4(n: nat): (s: string)
    requires n < 10000
    ensures |s| == 4
  {
    Pad2(n / 100) + Pad2(n % 100)
  }

  /** The four characters of `Pad4(n)` are digits spelling `n`. */
  lemma Pad4Digits(n: nat)
    requires n < 10000
    ensures AllDigits(Pad4(n)) && DigitsValue(Pad4(n)) == n
  {
    var hi, lo := Pad2(n / 100), Pad2(n % 100);
    Pad2Digits(n / 100);
    Pad2Digits(n % 100);
    var s := Pad4(n);
    assert s[..3] == hi + [lo[0]] && s[..3][..2] == hi;
    assert lo[..1][..0] == [] && DigitsValue(lo[..1]) == DigitValue(lo[0]);
  }

  /** A two-digit string is the padded spelling of its value. */
  lemma Pad2Injective(s: string)
    requires |s| == 2 && AllDigits(s)
    ensures DigitsValue(s) < 100 && Pad2(DigitsValue(s)) == s
  {
    DigitsValueBound(s);
    assert Pow10(2) == 100;
    Pad2Digits(DigitsValue(s));
    DigitsValueInjective(Pad2(DigitsValue(s)), s);
  }

  function Pow10(n: nat): nat { if n == 0 then 1 else 10 * Pow10(n - 1) }

  /** An `n`-digit string spells a number below `10^n`. */
  lemma {:induction false} DigitsValueBound(s: string)
    requires AllDigits(s)
    ensures DigitsValue(s) < Pow10(|s|)
    decreases |s|
  {
    if s != [] { DigitsValueBound(s[..|s| - 1]); }
  }

  /** The last decimal digit and the rest of `10 * q + d`. */
  lemma LastDigit(q: nat, d: nat)
    requires d < 10
    ensures (q * 10 + d) % 10 == d && (q * 10 + d) / 10 == q
  {
  }

  /** Two digit strings of the same length spelling the same number are the same string. */
  lemma {:induction false} DigitsValueInjective(a: string, b: string)
    requires |a| == |b| && AllDigits(a) && AllDigits(b) && DigitsValue(a) == DigitsValue(b)
    ensures a == b
    decreases |a|
  {
    if a != [] {
      var n := |a|;
      var a', b' := a[..n - 1], b[..n - 1];
      assert AllDigits(a') && AllDigits(b');
      var x, y := DigitValue(a[n - 1]), DigitValue(b[n - 1]);
      assert DigitsValue(a) == DigitsValue(a') * 10 + x;
      assert DigitsValue(b) == DigitsValue(b') * 10 + y;
      LastDigit(DigitsValue(a'), x);
      LastDigit(DigitsValue(b'), y);
      assert x == y && DigitsValue(a') == DigitsValue(b');
      DigitsValueInjective(a', b');
      assert a[n - 1] == b[n - 1];
      assert a == a' + [a[n - 1]] && b == b' + [b[n - 1]];
    }
  }

  lemma Pad4Injective(s: string)
    requires |s| == 4 && AllDigits(s)
    ensures DigitsValue(s) < 10000 && Pad4(DigitsValue(s)) == s
  {
    DigitsValueBound(s);
    assert Pow10(4) == 10000;
    Pad4Digits(DigitsValue(s));
    DigitsValueInjective(Pad4(DigitsValue(s)), s);
  }

  // ---------------------------------------------------------------------
  // re.findall(r"\d+", s)[0]

  /** The longest prefix of `s` made of digits. */
  function TakeDigits(s: string): (d: string)
    ensures |d| <= |s| && d == s[..|d|] && AllDigits(d)
    ensures |d| < |s| ==> !IsDigit(s[|d|])
    decreases |s|
  {
    if s != [] && IsDigit(s[0]) then [s[0]] + TakeDigits(s[1..]) else []
  }

  /** `d` is a maximal run of digits in `s` at `i`, and no digit comes before it. */
  predicate FirstRunAt(s: string, d: string, i: int) {
    && 0 <= i && i + |d| <= |s| && s[i..i + |d|] == d
    && |d| > 0 && AllDigits(d)
    && (forall j :: 0 <= j < i ==> !IsDigit(s[j]))
    && (i + |d| == |s| || !IsDigit(s[i + |d|]))
  }

  /**
    * The first maximal run of digits in `s`, or `None` when `s` has no digit
    * (where `re.findall(...)[0]` raises `IndexError`).
    */
  function FirstDigitRun(s: string): (r: Option<string>)
    ensures r.None? <==> forall i :: 0 <= i < |s| ==> !IsDigit(s[i])
    ensures r.Some? ==> exists i :: FirstRunAt(s, r.value, i)
    decreases |s|
  {
    if s == [] then None
    else if IsDigit(s[0]) then
      var d := TakeDigits(s);
      assert FirstRunAt(s, d, 0);
      Some(d)
    else
      var r := FirstDigitRun(s[1..]);
      if r.Some? then
        var i :| FirstRunAt(s[1..], r.value, i);
        assert forall j :: 1 <= j < i + 1 ==> s[j] == s[1..][j - 1];
        assert FirstRunAt(s, r.value, i + 1);
        r
      else
        assert forall i :: 1 <= i < |s| ==> s[i] == s[1..][i - 1];
        r
  }

  /**
    * `int(re.findall(r"\d+", s)[0])`: `None` when there is no digit
    * (`IndexError`) or when the first run is longer than the limit
    * (`ValueError`).
    */
  function FirstRunInt(s: string): (r: Option<int>)
    ensures r.Some? <==> FirstDigitRun(s).Some? && |FirstDigitRun(s).value| <= MaxStrDigits
    ensures r.Some? ==> r.value == DigitsValue(FirstDigitRun(s).value) as int
  {
    match FirstDigitRun(s)
    case None => None
    case Some(ds) =>
      FirstRunIsDigits(s, ds);
      PyIntOfDigits(ds);
      PyInt(ds)
  }

  /** A first run of digits is a non-empty digit string. */
  lemma {:induction false} FirstRunIsDigits(s: string, d: string)
    requires exists i :: FirstRunAt(s, d, i)
    ensures |d| > 0 && AllDigits(d)
  {
    var i :| FirstRunAt(s, d, i);
  }

  // ---------------------------------------------------------------------
  // String order (Python `<=`, SQLite's BINARY collation)

  /** Lexicographic order by code point, a prefix coming first. */
  predicate LexLe(a: string, b: string)
    decreases |a|
  {
    if a == [] then true
    else if b == [] then false
    else if a[0] != b[0] then a[0] < b[0]
    else LexLe(a[1..], b[1..])
  }

  lemma {:induction false} LexLeTotal(a: string, b: string)
    ensures LexLe(a, b) || LexLe(b, a)
    decreases |a|
  {
    if a != [] && b != [] && a[0] == b[0] { LexLeTotal(a[1..], b[1..]); }
  }

  lemma {:induction false} LexLeAntisymmetric(a: string, b: string)
    requires LexLe(a, b) && LexLe(b, a)
    ensures a == b
    decreases |a|
  {
    if a != [] {
      LexLeAntisymmetric(a[1..], b[1..]);
      assert a == [a[0]] + a[1..] && b == [b[0]] + b[1..];
    }
  }

  lemma {:induction false} LexLeTransitive(a: string, b: string, c: string)
    requires LexLe(a, b) && LexLe(b, c)
    ensures LexLe(a, c)
    decreases |a|
  {
    if a != [] && b != [] && c != [] && a[0] == b[0] && b[0] == c[0] {
      LexLeTransitive(a[1..], b[1..], c[1..]);
    }
  }

  /** A common prefix does not change the order. */
  lemma {:induction false} LexLeCommonPrefix(p: string, r: string, s: string)
    ensures LexLe(p + r, p + s) == LexLe(r, s)
    decreases |p|
  {
    if p == [] {
      assert p + r == r && p + s == s;
    } else {
      assert (p + r)[0] == (p + s)[0];
      assert (p + r)[1..] == p[1..] + r && (p + s)[1..] == p[1..] + s;
      LexLeCommonPrefix(p[1..], r, s);
    }
  }

  /** Equal-length prefixes that differ decide the order on their own. */
  lemma {:induction false} LexLeDifferentPrefix(p: string, q: string, r: string, s: string)
    requires |p| == |q| && p != q
    ensures LexLe(p + r, q + s) == LexLe(p, q)
    decreases |p|
  {
    if p[0] == q[0] {
      assert p[1..] != q[1..] by { assert p == [p[0]] + p[1..] && q == [q[0]] + q[1..]; }
      assert (p + r)[1..] == p[1..] + r && (q + s)[1..] == q[1..] + s;
      LexLeDifferentPrefix(p[1..], q[1..], r, s);
    }
  }

  /** On two-digit zero-padded numbers the string order is the numeric order. */
  lemma Pad2Order(x: nat, y: nat)
    requires x < y < 100
    ensures LexLe(Pad2(x), Pad2(y)) && Pad2(x) != Pad2(y)
  {
    var a, b := Pad2(x), Pad2(y);
    if x / 10 == y / 10 {
      assert a[1..] == [DigitChar(x % 10)] && b[1..] == [DigitChar(y % 10)];
      assert DigitValue(a[1]) < DigitValue(b[1]);
    } else {
      assert DigitValue(a[0]) < DigitValue(b[0]);
    }
  }
}
