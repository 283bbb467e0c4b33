/** The duration parser of utils/time_parser.py: a token such as "30s", "5m", "1h" or
    "1d" becomes a span of whole seconds. */
module TimeParser {

  /** The largest span a Python `timedelta` can hold, in whole seconds:
      999999999 days and 86399 seconds. */
  const MAX_SECONDS: nat := 999_999_999 * 86400 + 86399

  /** What `parse_duration` produces: a span, `None` for a token that does not match,
      or the OverflowError that `timedelta` raises for a span past its maximum. */
  datatype Parsed = Span(seconds: nat) | NoMatch | Overflow

  predicate IsDigit(c: char)
  {
    '0' <= c <= '9'
  }

  predicate AllDigits(s: string)
  {
    forall i | 0 <= i < |s| :: IsDigit(s[i])
  }

  predicate IsUnit(c: char)
  {
    c == 's' || c == 'm' || c == 'h' || c == 'd'
  }

  /** `str.lower` on one character, restricted to ASCII letters. */
  function LowerChar(c: char): char
  {
    if 'A' <= c <= 'Z' then (c as int + 32) as char else c
  }

  function UpperChar(c: char): char
  {
    if 'a' <= c <= 'z' then (c as int - 32) as char else c
  }

  function Lower(s: string): string
  {
    seq(|s|, i requires 0 <= i < |s| => LowerChar(s[i]))
  }

  /** `re.fullmatch(r"(\d+)([smhd])", t)` succeeds. */
  predicate FullMatch(t: string)
  {
    |t| >= 2 && AllDigits(t[..|t| - 1]) && IsUnit(t[|t| - 1])
  }

  function DigitValue(c: char): nat
    requires IsDigit(c)
  {
    c as int - '0' as int
  }

  /** `int(ds)` for a string of ASCII digits. */
  function DecimalValue(ds: string): nat
    requires AllDigits(ds)
    decreases |ds|
  {
    if ds == [] then 0 else 10 * DecimalValue(ds[..|ds| - 1]) + DigitValue(ds[|ds| - 1])
  }

  /** `timedelta(days=.., hours=.., minutes=.., seconds=..)` on whole numbers: the
      normalised span, or OverflowError once it exceeds `timedelta.max`. */
  function Timedelta(days: nat := 0, hours: nat := 0, minutes: nat := 0, seconds: nat := 0): Parsed
  {
    var total := days * 86400 + hours * 3600 + minutes * 60 + seconds;
    if total <= MAX_SECONDS then Span(total) else Overflow
  }

  /** Seconds per unit letter: the reference table the parser is held to. */
  function UnitSeconds(u: char): nat
    requires IsUnit(u)
  {
    if u == 's' then 1 else if u == 'm' then 60 else if u == 'h' then 3600 else 86400
  }

  /** The accepted shape, stated on the token as typed: one or more ASCII digits
      followed by exactly one unit letter in either case. */
  predicate WellFormed(token: string)
  {
    |token| >= 2 && AllDigits(token[..|token| - 1]) && IsUnit(LowerChar(token[|token| - 1]))
  }

  /** `parse_duration`: lower-case the whole token, match it in full against
      digits-then-unit, and build the span for the unit letter. */
  function ParseDuration(token: string): (r: Parsed)
    ensures r.NoMatch? <==> !WellFormed(token)
    ensures WellFormed(token) ==>
      var seconds := DecimalValue(token[..|token| - 1]) * UnitSeconds(LowerChar(token[|token| - 1]));
      r == if seconds <= MAX_SECONDS then Span(seconds) else Overflow
  {
    LowerMatches(token);
    var t := Lower(token);
    if !FullMatch(t) then NoMatch
    else
      var value, unit := DecimalValue(t[..|t| - 1]), t[|t| - 1];
      if unit == 's' then Timedelta(seconds := value)
      else if unit == 'm' then Timedelta(minutes := value)
      else if unit == 'h' then Timedelta(hours := value)
      else if unit == 'd' then Timedelta(days := value)
      else NoMatch
  }

  /** Lower-casing leaves digits alone and never turns another character into a digit,
      so the match on the lowered token is the shape of the token as typed. */
  lemma LowerMatches(token: string)
    ensures FullMatch(Lower(token)) <==> WellFormed(token)
    ensures WellFormed(token) ==>
      Lower(token)[..|token| - 1] == token[..|token| - 1] &&
      Lower(token)[|token| - 1] == LowerChar(token[|token| - 1])
  {
    var t := Lower(token);
    if |token| >= 2 {
      var n := |token| - 1;
      if AllDigits(token[..n]) {
        assert t[..n] == token[..n];
      }
      if AllDigits(t[..n]) {
        forall i | 0 <= i < n ensures IsDigit(token[i]) {
          assert IsDigit(t[..n][i]);
        }
      }
    }
  }

  /** Parsing a token and parsing its lower-cased form agree: case never matters. */
  lemma ParseIgnoresCase(token: string)
    ensures ParseDuration(Lower(token)) == ParseDuration(token)
  {
    var t := Lower(token);
    assert forall i | 0 <= i < |t| :: LowerChar(t[i]) == t[i];
    assert Lower(t) == t;
  }

  function DigitChar(d: nat): char
    requires d < 10
  {
    ('0' as int + d) as char
  }

  /** The decimal rendering of `n`, without leading zeros. */
  function Decimal(n: nat): (s: string)
    ensures |s| >= 1 && AllDigits(s)
    decreases n
  {
    if n < 10 then [DigitChar(n)] else Decimal(n / 10) + [DigitChar(n % 10)]
  }

  function Zeros(k: nat): string
  {
    seq(k, _ => '0')
  }

  /** `int` inverts the decimal rendering. */
  lemma {:induction false} DecimalRoundTrip(n: nat)
    ensures DecimalValue(Decimal(n)) == n
    decreases n
  {
    if n >= 10 {
      var s := Decimal(n / 10);
      DecimalRoundTrip(n / 10);
      assert (s + [DigitChar(n % 10)])[..|s|] == s;
    }
  }

  lemma {:induction false} ZerosValue(k: nat)
    ensures AllDigits(Zeros(k)) && DecimalValue(Zeros(k)) == 0
    decreases k
  {
    if k > 0 {
      ZerosValue(k - 1);
      assert Zeros(k)[..k - 1] == Zeros(k - 1);
    }
  }

  /** Leading zeros do not change the value `int` reads. */
  lemma {:induction false} LeadingZeros(k: nat, ds: string)
    requires AllDigits(ds)
    ensures AllDigits(Zeros(k) + ds) && DecimalValue(Zeros(k) + ds) == DecimalValue(ds)
    decreases |ds|
  {
    if ds == [] {
      ZerosValue(k);
      assert Zeros(k) + ds == Zeros(k);
    } else {
      var n := |ds| - 1;
      LeadingZeros(k, ds[..n]);
      assert (Zeros(k) + ds)[..k + n] == Zeros(k) + ds[..n];
    }
  }

  /** Every number written in decimal, with any number of leading zeros and a unit
      letter in either case, parses to that number times the unit's seconds, or to
      an overflow past the `timedelta` maximum. */
  lemma ParseRendered(k: nat, n: nat, u: char)
    requires IsUnit(u)
    ensures var expected := if n * UnitSeconds(u) <= MAX_SECONDS then Span(n * UnitSeconds(u)) else Overflow;
      ParseDuration(Zeros(k) + Decimal(n) + [u]) == expected &&
      ParseDuration(Zeros(k) + Decimal(n) + [UpperChar(u)]) == expected
  {
    var ds := Zeros(k) + Decimal(n);
    DecimalRoundTrip(n);
    LeadingZeros(k, Decimal(n));
    assert (ds + [u])[..|ds|] == ds;
    assert (ds + [UpperChar(u)])[..|ds|] == ds;
  }

  /** The parser accepts zero; rejecting a zero span is left to its caller. */
  lemma ParseAcceptsZero()
    ensures ParseDuration("0s") == Span(0)
    ensures ParseDuration("0d") == Span(0)
  {
    assert "0s"[..1] == "0" && "0d"[..1] == "0" && "0"[..0] == "";
    assert DecimalValue("0") == 0;
  }

  /** Concrete readings of well-formed tokens. */
  lemma ParseReadings()
    ensures ParseDuration("30s") == Span(30)
    ensures ParseDuration("10m") == Span(600) && ParseDuration("10M") == Span(600)
    ensures ParseDuration("2d") == Span(172800)
  {
    assert "30s"[..2] == "30" && "10m"[..2] == "10" && "10M"[..2] == "10" && "2d"[..1] == "2";
    assert "30"[..1] == "3" && "10"[..1] == "1" && "3"[..0] == "" && "1"[..0] == "" && "2"[..0] == "";
    assert DecimalValue("30") == 30 && DecimalValue("10") == 10 && DecimalValue("2") == 2;
  }

  /** Leading zeros are read as a decimal number: "007s" is seven seconds. */
  lemma ParseLeadingZeros()
    ensures ParseDuration("007s") == Span(7)
  {
    assert "007s"[..3] == "007" && "007"[..2] == "00" && "00"[..1] == "0" && "0"[..0] == "";
    assert DecimalValue("007") == 7;
  }

  /** Tokens that are not one or more digits followed by one unit letter. */
  lemma ParseRejections()
    ensures ParseDuration("") == NoMatch && ParseDuration("5") == NoMatch
    ensures ParseDuration("m10") == NoMatch && ParseDuration("-5m") == NoMatch
    ensures ParseDuration("10x") == NoMatch && ParseDuration(" 5m") == NoMatch
    ensures ParseDuration("5m ") == NoMatch && ParseDuration("1.5h") == NoMatch
  {
    assert !IsDigit("m10"[0]) && !IsDigit("-5m"[0]) && !IsDigit(" 5m"[0]);
    assert !IsDigit("5m "[1]) && !IsDigit("1.5h"[1]);
  }
}
