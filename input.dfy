/**
 * getUserN in script.js: the disk count typed into the page is read with
 * parseInt and must lie between 1 and 8.
 */
module Input {
  import opened Wrappers
  import Text

  /** What parseInt returns: NaN or an integer. */
  datatype Number = NaN | Num(value: int)

  /**
   * The white space parseInt skips before the number: tab, vertical tab, form
   * feed, the byte-order mark, the line terminators, and the space separators
   * of Unicode category Zs.
   */
  predicate IsSpace(c: char)
  {
    c == ' ' || c == '\t' || c == '\n' || c == '\r' || c as int == 0x0B || c as int == 0x0C ||
    c as int == 0xA0 || c as int == 0xFEFF || c as int == 0x2028 || c as int == 0x2029 ||
    c as int == 0x1680 || 0x2000 <= c as int <= 0x200A || c as int == 0x202F ||
    c as int == 0x205F || c as int == 0x3000
  }

  /** s without its leading white space. */
  function TrimStart(s: string): (r: string)
    ensures |r| <= |s|
  {
    if s == [] || !IsSpace(s[0]) then s else TrimStart(s[1..])
  }

  /**
   * Trimming drops a prefix of white space only and keeps the rest of s,
   * which is empty or starts with something other than white space.
   */
  lemma {:induction false} TrimStartIsSuffix(s: string)
    ensures TrimStart(s) == s[|s| - |TrimStart(s)|..]
    ensures forall i :: 0 <= i < |s| - |TrimStart(s)| ==> IsSpace(s[i])
    ensures |TrimStart(s)| > 0 ==> !IsSpace(TrimStart(s)[0])
    decreases |s|
  {
    if s != [] && IsSpace(s[0]) {
      TrimStartIsSuffix(s[1..]);
      assert s[1..][|s[1..]| - |TrimStart(s)|..] == s[|s| - |TrimStart(s)|..];
      forall i | 0 <= i < |s| - |TrimStart(s)|
        ensures IsSpace(s[i])
      {
        if i > 0 {
          assert s[i] == s[1..][i - 1];
        }
      }
    }
  }

  predicate IsHexDigit(c: char)
  {
    Text.IsDigit(c) || 'a' <= c <= 'f' || 'A' <= c <= 'F'
  }

  function HexValue(c: char): (d: nat)
    requires IsHexDigit(c)
    ensures d < 16
  {
    if Text.IsDigit(c) then Text.DigitValue(c)
    else if 'a' <= c <= 'f' then c as int - 'a' as int + 10
    else c as int - 'A' as int + 10
  }

  /** Whether s starts with a hexadecimal digit. */
  predicate StartsHex(s: string)
  {
    s != [] && IsHexDigit(s[0])
  }

  /**
   * The value of acc followed by the hexadecimal digits at the start of s,
   * read left to right as parseInt reads them.
   */
  function HexPrefix(s: string, acc: nat): (k: nat)
    ensures k >= acc
  {
    if !StartsHex(s) then acc else HexPrefix(s[1..], 16 * acc + HexValue(s[0]))
  }

  /** The value of the longest run of radix digits at the start of digits, or NaN if there is none. */
  function Magnitude(digits: string): (r: Number)
    ensures r.Num? ==> r.value >= 0
  {
    if |digits| >= 2 && digits[0] == '0' && (digits[1] == 'x' || digits[1] == 'X') then
      var h := digits[2..];
      if !StartsHex(h) then NaN else Num(HexPrefix(h, 0))
    else
      var k := Text.DigitRun(digits);
      if k == 0 then NaN else Num(Text.ParseDecimal(digits[..k]))
  }

  /**
   * parseInt(s) with no radix: leading white space is skipped, an optional
   * sign read, a 0x or 0X prefix selects base 16, and the longest run of
   * digits that follows is the value; with no digit the result is NaN.
   */
  function ParseInt(s: string): (r: Number)
  {
    var t := TrimStart(s);
    if |t| > 0 && (t[0] == '-' || t[0] == '+') then
      match Magnitude(t[1..])
      case NaN => NaN
      case Num(v) => Num(if t[0] == '-' then -v else v)
    else Magnitude(t)
  }

  /** The digits of a rendered natural number are read back as that number. */
  lemma MagnitudeOfDecimal(m: nat)
    ensures Magnitude(Text.DecimalString(m)) == Num(m)
  {
    var digits := Text.DecimalString(m);
    assert |digits| >= 2 ==> Text.IsDigit(digits[1]);
    Text.DigitRunStopsAtEnd(digits);
    assert digits[..|digits|] == digits;
    Text.DecimalRoundTrip(m);
  }

  lemma TrimKeeps(s: string)
    requires |s| > 0 && !IsSpace(s[0])
    ensures TrimStart(s) == s
  {
  }

  /** parseInt reads back every integer as string concatenation renders it. */
  lemma ParseIntRoundTrip(k: int)
    ensures ParseInt(Text.IntString(k)) == Num(k)
  {
    if k < 0 {
      var digits := Text.DecimalString(-k);
      MagnitudeOfDecimal(-k);
      var s := "-" + digits;
      TrimKeeps(s);
      assert s[1..] == digits;
    } else {
      var digits := Text.DecimalString(k);
      MagnitudeOfDecimal(k);
      assert Text.IsDigit(digits[0]);
      TrimKeeps(digits);
    }
  }

  /** An empty field holds no digits: parseInt gives NaN. */
  lemma EmptyIsNaN()
    ensures ParseInt("") == NaN
  {
  }

  /**
   * The range test as written, n < 1 || n > 8, evaluated with JavaScript's
   * comparisons: both comparisons with NaN are false, so NaN is not rejected.
   */
  predicate OutOfRangeAsWritten(x: Number)
  {
    match x
    case NaN => false
    case Num(v) => v < 1 || v > 8
  }

  /** What getUserN returns as written: null (None) when the test rejects, otherwise the parsed number. */
  function GetUserNAsWritten(value: string): (r: Option<Number>)
    ensures r.None? <==> OutOfRangeAsWritten(ParseInt(value))
    ensures r.Some? ==> r.value == ParseInt(value)
  {
    var x := ParseInt(value);
    if OutOfRangeAsWritten(x) then None else Some(x)
  }

  /** An empty field (or any text without a leading number) gets past the test as NaN. */
  lemma NaNGetsThrough()
    ensures GetUserNAsWritten("") == Some(NaN)
  {
    EmptyIsNaN();
  }

  /** The test as intended: only the integers 1..8 pass. */
  predicate OutOfRange(x: Number)
  {
    x.NaN? || x.value < 1 || x.value > 8
  }

  /** The disk count the page accepts from the text of the field, if any. */
  function CheckedN(value: string): (r: Option<int>)
    ensures r.Some? <==> ParseInt(value).Num? && 1 <= ParseInt(value).value <= 8
    ensures r.Some? ==> r.value == ParseInt(value).value
  {
    var x := ParseInt(value);
    if OutOfRange(x) then None else Some(x.value)
  }

  /** The correction only adds NaN to what is rejected; on numbers both tests agree. */
  lemma CorrectionOnlyRejectsNaN(x: Number)
    ensures OutOfRange(x) <==> x.NaN? || OutOfRangeAsWritten(x)
  {
  }

  /** Every number the page shows in the field is accepted as itself. */
  lemma AcceptsRenderedCounts(n: int)
    requires 1 <= n <= 8
    ensures CheckedN(Text.IntString(n)) == Some(n)
  {
    ParseIntRoundTrip(n);
  }
}
