/** Shared vocabulary: optional values, the clock units the bot stores, and the
    few string operations the Python code relies on (lower-casing, stripping,
    str(int) and int(str)). */
module Common {

  datatype Option<T> = None | Some(value: T)

  /** A calendar date, as a count of days (CURRENT_DATE, date.today()). */
  type Day = int

  /** A point in time, in whole seconds (datetime.now()). */
  type Instant = int

  const SecondsPerDay: int := 86400

  /** The calendar date of an instant (now.date()). */
  function DayOf(t: Instant): Day {
    t / SecondsPerDay
  }

  /** Midnight of a day, as stored into a timestamp column. */
  function StartOfDay(d: Day): Instant {
    d * SecondsPerDay
  }

  // ---------------------------------------------------------------------------
  // Case folding and whitespace

  /** Lower-casing of one character for the Latin and Cyrillic alphabets. */
  function LowerChar(c: char): char {
    if 'A' <= c <= 'Z' then (c as int + 32) as char
    else if 'А' <= c <= 'Я' then (c as int + 32) as char
    else if 'Ѐ' <= c <= 'Џ' then (c as int + 80) as char
    else c
  }

  function Lower(s: string): (r: string)
    ensures |r| == |s|
    ensures forall i :: 0 <= i < |s| ==> r[i] == LowerChar(s[i])
  {
    if s == [] then [] else [LowerChar(s[0])] + Lower(s[1..])
  }

  predicate IsSpace(c: char) {
    c == ' ' || c == '\t' || c == '\n' || c == '\r' || c == '\U{000B}' || c == '\U{000C}'
  }

  /** Number of whitespace characters at the front of s. */
  function LeadingSpaces(s: string): (k: nat)
    ensures k <= |s| && (k == |s| || !IsSpace(s[k]))
    ensures forall j :: 0 <= j < k ==> IsSpace(s[j])
  {
    if s != [] && IsSpace(s[0]) then 1 + LeadingSpaces(s[1..]) else 0
  }

  /** Number of whitespace characters at the end of s. */
  function TrailingSpaces(s: string): (k: nat)
    ensures k <= |s| && (k == |s| || !IsSpace(s[|s| - 1 - k]))
    ensures forall j :: |s| - k <= j < |s| ==> IsSpace(s[j])
  {
    if s != [] && IsSpace(s[|s| - 1]) then 1 + TrailingSpaces(s[..|s| - 1]) else 0
  }

  function TrimStart(s: string): string {
    s[LeadingSpaces(s)..]
  }

  function TrimEnd(s: string): string {
    s[..|s| - TrailingSpaces(s)]
  }

  /** str.strip(): whitespace removed from both ends. */
  function Strip(s: string): string {
    TrimEnd(TrimStart(s))
  }

  /** strip() ignores one more whitespace character at the front. */
  lemma StripLeadingSpace(c: char, s: string)
    requires IsSpace(c)
    ensures Strip([c] + s) == Strip(s)
  {
    assert ([c] + s)[1..] == s;
    assert TrimStart([c] + s) == TrimStart(s);
  }

  /** Past a prefix and one whitespace character, strip() sees only the rest. */
  lemma StripAfterPrefix(prefix: string, c: char, s: string)
    requires IsSpace(c)
    ensures Strip((prefix + [c] + s)[|prefix|..]) == Strip(s)
  {
    assert (prefix + [c] + s)[|prefix|..] == [c] + s;
    StripLeadingSpace(c, s);
  }

  // ---------------------------------------------------------------------------
  // Prefixes, suffixes, substrings

  predicate StartsWith(s: string, p: string) {
    |p| <= |s| && s[..|p|] == p
  }

  predicate EndsWith(s: string, p: string) {
    |p| <= |s| && s[|s| - |p|..] == p
  }

  /** `sub in s` for strings. */
  ghost predicate ContainsAt(s: string, sub: string, i: int) {
    0 <= i && i + |sub| <= |s| && s[i..i + |sub|] == sub
  }

  /** A computable substring test: sub occurs at some index of s. */
  function Occurs(s: string, sub: string): (r: bool)
    ensures r <==> exists i :: ContainsAt(s, sub, i)
    decreases |s|
  {
    if StartsWith(s, sub) then
      assert ContainsAt(s, sub, 0);
      true
    else if s == [] then
      false
    else
      var r := Occurs(s[1..], sub);
      if r then
        assert forall i :: ContainsAt(s[1..], sub, i) ==> ContainsAt(s, sub, i + 1);
        true
      else
        assert forall i :: ContainsAt(s, sub, i) ==> i >= 1 && ContainsAt(s[1..], sub, i - 1);
        false
  }

  /** sep.join(parts). */
  function Join(parts: seq<string>, sep: string): (r: string)
    ensures parts == [] ==> r == []
    ensures |parts| == 1 ==> r == parts[0]
    ensures parts != [] ==> StartsWith(r, parts[0])
  {
    if parts == [] then []
    else if |parts| == 1 then parts[0]
    else
      var init := parts[..|parts| - 1];
      assert init[0] == parts[0];
      Join(init, sep) + sep + parts[|parts| - 1]
  }

  /** Joining one more part adds a separator and the part. */
  lemma JoinSnoc(parts: seq<string>, p: string, sep: string)
    requires parts != []
    ensures Join(parts + [p], sep) == Join(parts, sep) + sep + p
  {
    assert (parts + [p])[..|parts|] == parts;
  }

  /** Joining two non-empty lists puts one separator between their joins. */
  lemma {:induction false} JoinConcat(a: seq<string>, b: seq<string>, sep: string)
    requires a != [] && b != []
    ensures Join(a + b, sep) == Join(a, sep) + sep + Join(b, sep)
    decreases |b|
  {
    var last := b[|b| - 1];
    if |b| == 1 {
      assert a + b == a + [last];
      JoinSnoc(a, last, sep);
    } else {
      var b' := b[..|b| - 1];
      assert a + b == (a + b') + [last];
      assert b == b' + [last];
      JoinSnoc(a + b', last, sep);
      JoinSnoc(b', last, sep);
      JoinConcat(a, b', sep);
      assert (Join(a, sep) + sep + Join(b', sep)) + sep + last == Join(a, sep) + sep + (Join(b', sep) + sep + last);
    }
  }

  // ---------------------------------------------------------------------------
  // Decimal numerals: str(n) and int(s)

  function DigitChar(d: int): char
    requires 0 <= d < 10
  {
    ('0' as int + d) as char
  }

  predicate IsDigit(c: char) {
    '0' <= c <= '9'
  }

  function DigitValue(c: char): int
    requires IsDigit(c)
  {
    c as int - '0' as int
  }

  /** str(n) for n >= 0. */
  function NatToDecimal(n: nat): (s: string)
    ensures |s| > 0 && forall i :: 0 <= i < |s| ==> IsDigit(s[i])
  {
    if n < 10 then [DigitChar(n)] else NatToDecimal(n / 10) + [DigitChar(n % 10)]
  }

  /** str(n) for any integer. */
  function Decimal(n: int): (s: string)
    ensures |s| > 0
    ensures forall i :: 0 <= i < |s| ==> IsDigit(s[i]) || (i == 0 && s[i] == '-')
  {
    if n < 0 then "-" + NatToDecimal(-n) else NatToDecimal(n)
  }

  predicate AllDigits(s: string) {
    forall i :: 0 <= i < |s| ==> IsDigit(s[i])
  }

  function DigitsValue(s: string): (n: nat)
    requires AllDigits(s)
  {
    if s == [] then 0 else DigitsValue(s[..|s| - 1]) * 10 + DigitValue(s[|s| - 1])
  }

  /** int(s): an optional sign followed by at least one ASCII digit; None where
      Python raises ValueError. */
  function ParseInt(s: string): (r: Option<int>)
    ensures r.Some? ==> s != [] && !IsSpace(s[0])
  {
    if |s| > 0 && (s[0] == '-' || s[0] == '+') then
      var body := s[1..];
      if |body| > 0 && AllDigits(body) then
        var v: int := DigitsValue(body);
        Some(if s[0] == '-' then -v else v)
      else None
    else if |s| > 0 && AllDigits(s) then Some(DigitsValue(s))
    else None
  }

  lemma {:induction false} DigitsOfNat(n: nat)
    ensures AllDigits(NatToDecimal(n)) && DigitsValue(NatToDecimal(n)) == n
  {
    var s := NatToDecimal(n);
    if n >= 10 {
      DigitsOfNat(n / 10);
      assert s[..|s| - 1] == NatToDecimal(n / 10);
    }
  }

  /** int(str(n)) == n. */
  lemma DecimalRoundTrip(n: int)
    ensures ParseInt(Decimal(n)) == Some(n)
  {
    if n < 0 {
      DigitsOfNat(-n);
      assert Decimal(n)[1..] == NatToDecimal(-n);
    } else {
      DigitsOfNat(n);
    }
  }
}
